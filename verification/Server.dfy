/** The server's code, working on the table and the bucket in place. Whatever it does is a run of
    the state machine, so everything proved about runs holds of it. */
module Server {
  import opened Outcomes
  import opened Octets
  import opened ContributorsDb
  import opened ContributionFiles
  import opened QueueLaws
  import opened Ceremony
  import opened CeremonyInvariant
  import opened CeremonySafety
  import opened ServerSteps
  import opened ServerOutcomes

  /** The shared state of the server: the table, the bucket and the outstanding verification
      jobs. `run` is what has happened so far, for the statements only. */
  class ServerState {
    const world: World
    const startClock: nat
    const db: ContributorsDB
    const store: ContributionFilesStore
    var clock: nat
    var jobs: map<nat, Job>
    var nextJob: nat
    ghost var run: seq<Event>

    constructor (world: World, startClock: nat)
      ensures Valid() && Idle() && run == [] && fresh(db) && fresh(store)
    {
      this.world := world;
      this.startClock := startClock;
      db := new ContributorsDB();
      store := new ContributionFilesStore();
      clock := startClock;
      jobs := map[];
      nextJob := 0;
      run := [];
    }

    ghost function Machine(): State
      reads this
    {
      After(world, Initial(startClock), run)
    }

    /** The fields are those of the machine after the run so far. */
    ghost predicate Valid()
      reads this, db, store
    {
      var s := Machine();
      db.rows == s.rows && store.objects == s.files && clock == s.clock && jobs == s.jobs && nextJob == s.nextJob
    }

    /** How many operations of the storage have failed. */
    ghost function Faults(): nat
      reads db, store
    {
      db.faults + store.faults
    }

    /** The mutex is free. */
    ghost predicate Idle()
      reads this
    {
      Machine().handler.None?
    }

    // ---- Beginning and failing ----

    /** Taking the mutex and reading the clock. */
    method Start(msg: Msg) returns (now: nat)
      requires Valid() && Idle()
      modifies this`clock, this`run
      ensures Valid() && clock == now > old(clock) && run == old(run) + [Begin(msg, now - old(clock) - 1)]
      ensures Pending(Machine()) == PlanOf(world.config, db.rows, msg, now).effects
      ensures Pending(Machine()) == [] ==> Idle()
      ensures MostRecentFinished(db.rows) == LastKey(Machine().history) && RowsOk(db.rows, old(clock))
    {
      hide After, Next, PlanOf, RowsOk, MostRecentFinished;
      now :| now > clock;
      BeginStep(world, startClock, run, msg, now - clock - 1);
      run := run + [Begin(msg, now - clock - 1)];
      clock := now;
    }

    /** An operation fails: the handler returns its error and the mutex is released. */
    ghost method Fail()
      requires Valid() && !Idle()
      modifies this`run
      ensures Valid() && Idle() && Extended(old(run), run)
    {
      hide After, Next;
      AbortStep(world, startClock, run);
      run := run + [Abort];
    }

    // ---- The operations of a handler ----

    /** An update of a row. */
    method Commit(k: Key, move: Move) returns (ok: bool)
      requires Valid() && Pending(Machine()) != [] && Pending(Machine())[0] == Write(k, move) && !move.Register?
      modifies this`clock, this`run, db
      ensures Valid() && Extended(old(run), run)
      ensures clock >= old(clock)
      ensures ok ==> clock > old(clock) && db.rows == Updated(old(db.rows), k, move, clock)
      ensures ok ==> Carried(old(Machine()), Machine()) && Faults() == old(Faults()) && Stepped(old(run), run, 1)
      ensures !ok ==> Idle() && Faults() > old(Faults()) && db.rows == old(db.rows)
    {
      hide After, Next, Effected, Updated;
      var now: nat :| now > clock;
      ok := db.Update(k, move, now);
      if !ok {
        Fail();
        return;
      }
      PerformStep(world, startClock, run, now - clock - 1);
      WriteEffect(Machine(), k, move, now);
      run := run + [Perform(now - clock - 1)];
      clock := now;
    }

    /** The insert of a new row. */
    method CommitRegister(k: Key, name: string, email: string) returns (ok: bool)
      requires Valid() && Pending(Machine()) != [] && Pending(Machine())[0] == Write(k, Move.Register(name, email)) && k !in db.rows
      modifies this`clock, this`run, db
      ensures Valid() && Extended(old(run), run)
      ensures clock >= old(clock)
      ensures ok ==> clock > old(clock) && db.rows == Updated(old(db.rows), k, Move.Register(name, email), clock)
      ensures ok ==> Carried(old(Machine()), Machine()) && Faults() == old(Faults()) && Stepped(old(run), run, 1)
      ensures !ok ==> Idle() && Faults() > old(Faults()) && db.rows == old(db.rows)
    {
      hide After, Next, Effected, Updated;
      var now: nat :| now > clock;
      ok := db.Register(k, name, email, now);
      if !ok {
        Fail();
        return;
      }
      PerformStep(world, startClock, run, now - clock - 1);
      WriteEffect(Machine(), k, Move.Register(name, email), now);
      run := run + [Perform(now - clock - 1)];
      clock := now;
    }

    /** `kick_current`. */
    method CommitKick(reason: KickReason) returns (ok: bool)
      requires Valid() && Pending(Machine()) != [] && Pending(Machine())[0] == KickCurrent(reason)
      modifies this`clock, this`run, db
      ensures Valid() && Extended(old(run), run)
      ensures clock >= old(clock)
      ensures ok ==> clock > old(clock) && old(Current(db.rows)).Some?
      ensures ok ==> db.rows == Updated(old(db.rows), old(Current(db.rows)).value, Kick(reason), clock)
      ensures ok ==> Carried(old(Machine()), Machine()) && Faults() == old(Faults()) && Stepped(old(run), run, 1)
      ensures !ok ==> Idle() && Faults() > old(Faults()) && db.rows == old(db.rows)
    {
      hide After, Next, Effected, Updated, Current, IsHead;
      var now: nat :| now > clock;
      KickEffect(world, startClock, run, reason, now);
      ghost var who;
      ok, who := db.KickCurrent(reason, now);
      if !ok {
        Fail();
        return;
      }
      PerformStep(world, startClock, run, now - clock - 1);
      run := run + [Perform(now - clock - 1)];
      clock := now;
    }

    /** `mark_finished_upload`, and the job is spawned. */
    method CommitFinish(k: Key, hash: string) returns (ok: bool)
      requires Valid() && Pending(Machine()) != [] && Pending(Machine())[0] == FinishAndVerify(k, hash)
      modifies this`clock, this`run, this`jobs, this`nextJob, db
      ensures Valid() && Extended(old(run), run)
      ensures clock >= old(clock)
      ensures ok ==> clock > old(clock) && db.rows == Updated(old(db.rows), k, FinishUpload(hash), clock)
      ensures ok ==> jobs == old(jobs)[old(nextJob) := Job(k, hash, Spawned)]
      ensures ok ==> Carried(old(Machine()), Machine()) && Faults() == old(Faults()) && Stepped(old(run), run, 1)
      ensures !ok ==> Idle() && Faults() > old(Faults()) && db.rows == old(db.rows) && jobs == old(jobs)
    {
      hide After, Next, Effected, Updated;
      var now: nat :| now > clock;
      ok := db.Update(k, FinishUpload(hash), now);
      if !ok {
        Fail();
        return;
      }
      PerformStep(world, startClock, run, now - clock - 1);
      FinishEffect(Machine(), k, hash, now);
      run := run + [Perform(now - clock - 1)];
      jobs := jobs[nextJob := Job(k, hash, Spawned)];
      nextJob := nextJob + 1;
      clock := now;
    }

    /** The URL of the previous contribution, if there is one. */
    method PreviousUrl(previous: Option<Key>) returns (ok: bool)
      requires Valid() && Pending(Machine()) == RequirePrevious(previous) && previous == LastKey(Machine().history)
      requires previous.None? ==> Idle()
      modifies this`clock, this`run, store`faults
      ensures Valid() && Extended(old(run), run) && Idle()
      ensures ok <==> Faults() == old(Faults())
      ensures ok ==> Stepped(old(run), run, |RequirePrevious(previous)|)
      ensures !ok ==> previous.Some?
      ensures Faults() >= old(Faults())
    {
      hide After, Next, Effected;
      LastFileExists(world, startClock, run);
      if previous.None? {
        return true;
      }
      ok := store.GetDownloadUrl(previous.value);
      if !ok {
        Fail();
        return false;
      }
      PerformStep(world, startClock, run, 0);
      RequireEffect(Machine(), Whole(previous.value), clock + 1);
      run := run + [Perform(0)];
      clock := clock + 1;
    }

    /** `get_upload_plan`. */
    method ClearUpload(k: Key) returns (ok: bool)
      requires Valid() && Pending(Machine()) == UploadPlan(k)
      modifies this`clock, this`run, store
      ensures Valid() && Extended(old(run), run) && Idle()
      ensures ok <==> Faults() == old(Faults())
      ensures ok ==> Stepped(old(run), run, |UploadPlan(k)|) && Cleared(old(store.objects), store.objects, k)
      ensures UploadPlan(k) != []
      ensures Faults() >= old(Faults())
    {
      hide After, Next, Dropped, Cleared;
      var done: nat;
      ok, done := store.GetUploadPlan(k);
      UploadPlanRemoves(k);
      RemovalSteps(world, startClock, run, UploadObjects(k), done);
      run := run + Performs(done);
      clock := clock + done;
      if done < PARALLEL_UPLOAD_PARTS + 1 {
        Fail();
      }
    }

    /** `finalize_upload`. */
    method ComposeUpload(k: Key, ghost rest: seq<Effect>) returns (ok: bool)
      requires Valid() && Pending(Machine()) == FinalizeUpload(k) + rest && rest != []
      modifies this`clock, this`run, store
      ensures Valid() && Extended(old(run), run) && clock >= old(clock)
      ensures ok ==> Pending(Machine()) == rest && !Idle() && Faults() == old(Faults())
      ensures ok ==> Stepped(old(run), run, |FinalizeUpload(k)|) && Finalized(old(store.objects), store.objects, k)
      ensures !ok ==> Idle() && (Faults() > old(Faults()) || !AllParts(old(store.objects), k))
    {
      hide After, Next, Dropped, AfterCompose, AllParts, FinalizeUpload, Finalized;
      var done: nat;
      ok, done := store.FinalizeUpload(k);
      FinalizeLength(k);
      FinalizeSteps(world, startClock, run, k, rest, done);
      run := run + Performs(done);
      clock := clock + done;
      if !ok {
        Fail();
      }
    }

    /** Composing the upload and marking it finished. */
    method FinishTheUpload(k: Key, hash: string) returns (ok: bool)
      requires Valid() && Pending(Machine()) == FinalizeUpload(k) + [FinishAndVerify(k, hash)]
      modifies this`clock, this`run, this`jobs, this`nextJob, db, store
      ensures Valid() && Extended(old(run), run) && Idle()
      ensures ok ==> Faults() == old(Faults()) && Stepped(old(run), run, |FinalizeUpload(k)| + 1)
      ensures ok ==> UploadDone(old(db.rows), db.rows, old(store.objects), store.objects, k, hash, clock)
      ensures ok ==> clock > old(clock) && jobs == old(jobs)[old(nextJob) := Job(k, hash, Spawned)]
      ensures !ok ==> db.rows == old(db.rows) && jobs == old(jobs) && (Faults() > old(Faults()) || !AllParts(old(store.objects), k))
    {
      hide After, Next, AllParts, FinalizeUpload, Finalized, Updated;
      ok := ComposeUpload(k, [FinishAndVerify(k, hash)]);
      if ok {
        ok := CommitFinish(k, hash);
      }
    }

    /** `get_most_recent_finished_contributor`. */
    method MostRecent() returns (previous: Option<Key>)
      requires Valid()
      ensures previous == LastKey(Machine().history)
    {
      previous := db.GetMostRecentFinished();
      LatestFound(world, startClock, run, previous);
    }

    /** The contributor who finished last, with a URL for their file. */
    method OfferPrevious() returns (ok: bool, previous: Option<Key>)
      requires Valid() && Pending(Machine()) == RequirePrevious(LastKey(Machine().history))
      requires Pending(Machine()) == [] ==> Idle()
      modifies this`clock, this`run, store`faults
      ensures Valid() && Extended(old(run), run) && Idle()
      ensures previous == LastKey(old(Machine()).history)
      ensures ok <==> Faults() == old(Faults())
      ensures ok ==> Stepped(old(run), run, |RequirePrevious(previous)|)
      ensures !ok ==> RequirePrevious(previous) != []
      ensures Faults() >= old(Faults())
    {
      hide After, Next;
      previous := MostRecent();
      ok := PreviousUrl(previous);
    }

    // ---- Handlers ----

    method HandleRegister(k: Key, name: string, email: string) returns (r: Response)
      requires Valid() && Idle()
      modifies this`clock, this`run, db
      ensures Valid() && Idle()
      ensures Answered(world.config, old(db.rows), old(clock), RegisterMsg(k, name, email), old(run), run, r, Faults() > old(Faults()))
      ensures RegisterOutcome(old(db.rows), db.rows, k, name, email, r, Faults() > old(Faults()), clock)
    {
      hide After, Next, Answered, RowsOk, Updated, RegisterOutcome;
      var now := Start(RegisterMsg(k, name, email));
      var found := db.GetWithPos(k);
      if found.Some? {
        r := Refused(InternalServerError);
      } else {
        var ok := CommitRegister(k, name, email);
        r := if ok then Done else Refused(InternalServerError);
      }
      AnsweredBy(world.config, old(db.rows), old(clock), RegisterMsg(k, name, email), old(run), run, r, Faults() > old(Faults()), now);
      RegisterMeans(world.config, old(db.rows), db.rows, k, name, email, r, Faults() > old(Faults()), now, clock);
    }

    method HandleJoin(k: Key) returns (r: Response)
      requires Valid() && Idle()
      modifies this`clock, this`run, db
      ensures Valid() && Idle()
      ensures Answered(world.config, old(db.rows), old(clock), JoinMsg(k), old(run), run, r, Faults() > old(Faults()))
      ensures JoinOutcome(world.config, old(db.rows), db.rows, k, r, Faults() > old(Faults()), clock)
    {
      hide After, Next, Answered, RowsOk, Updated, JoinOutcome;
      var now := Start(JoinMsg(k));
      var found := db.GetWithPos(k);
      if world.config.stopped {
        r := Refused(Forbidden);
      } else if found.None? {
        r := Refused(InternalServerError);
      } else {
        match found.value.1.status
        case DidntJoinQueue | Kicked =>
          var ok := Commit(k, Join);
          r := if ok then Done else Refused(InternalServerError);
        case Queued => r := Refused(BadRequest);
        case Finished => r := Refused(BadRequest);
      }
      AnsweredBy(world.config, old(db.rows), old(clock), JoinMsg(k), old(run), run, r, Faults() > old(Faults()), now);
      JoinMeans(world.config, old(db.rows), db.rows, k, r, Faults() > old(Faults()), now, clock);
    }

    method HandleGetStatus(k: Key) returns (r: Response)
      requires Valid() && Idle()
      modifies this`clock, this`run, db, store
      ensures Valid() && Idle()
      ensures Answered(world.config, old(db.rows), old(clock), GetStatus(k), old(run), run, r, Faults() > old(Faults()))
      ensures StatusOutcome(old(db.rows), db.rows, k, r, Faults() > old(Faults()), old(clock))
      ensures r == Status(ReadyForUpload) ==> Cleared(old(store.objects), store.objects, k)
      ensures r.Status? && r.status != ReadyForUpload ==> store.objects == old(store.objects)
    {
      hide After, Next, Answered, RowsOk, Position, MostRecentFinished, Cleared, Updated, StatusOutcome, StatusLeaves, StatusOf, PlanOf;
      var now := Start(GetStatus(k));
      var found := db.GetWithPos(k);
      if found.None? {
        UnknownStatus(world.config, old(db.rows), k, now);
        r := Refused(InternalServerError);
      } else {
        var (pos, row) := found.value;
        StatusTouches(world.config, old(db.rows), k, now);
        ghost var begun := run;
        var ok := Commit(k, Touch);
        if !ok {
          r := Refused(InternalServerError);
        } else {
          ghost var touched, run1, rows1 := clock, run, db.rows;
          ghost var started;
          r, started := RowStatus(k, pos, row);
          AfterTouch(StatusOf(k, row, pos, MostRecentFinished(old(db.rows))), Write(k, Touch), begun, run1, run, r, Faults() > old(Faults()));
          if r.Status? {
            StatusRows(old(db.rows), rows1, db.rows, k, old(clock), touched, started);
          }
        }
      }
      AnsweredBy(world.config, old(db.rows), old(clock), GetStatus(k), old(run), run, r, Faults() > old(Faults()), now);
      StatusMeansAll(world.config, old(db.rows), db.rows, k, r, Faults() > old(Faults()), old(clock), now);
    }

    /** The status request after its touch. */
    method RowStatus(k: Key, pos: nat, row: Row) returns (r: Response, ghost started: nat)
      requires Valid() && Pending(Machine()) == StatusOf(k, row, pos, LastKey(Machine().history)).effects
      requires Pending(Machine()) == [] ==> Idle()
      modifies this`clock, this`run, db, store
      ensures Valid() && Idle() && Extended(old(run), run)
      ensures AsPlanned(StatusOf(k, row, pos, LastKey(old(Machine()).history)), old(run), run, r, Faults() > old(Faults()))
      ensures r == Status(ReadyForUpload) ==> Cleared(old(store.objects), store.objects, k)
      ensures r.Status? && r.status != ReadyForUpload ==> store.objects == old(store.objects)
      ensures r.Status? ==> started > old(clock)
      ensures r.Status? ==>
        DownloadBegun(old(db.rows), db.rows, k, row.status == Queued && pos == 0 && row.Step() == DownloadNotStarted, started)
      ensures Faults() >= old(Faults())
    {
      hide After, Next, Cleared, Updated, HeadPlan;
      started := clock + 1;
      match row.status
      case DidntJoinQueue => r := Status(DidntJoin);
      case Kicked => r := Status(WasKicked(row.kickedError));
      case Finished => r := Status(FinishedContributing);
      case Queued =>
        if pos > 0 {
          r := Status(WaitingInQueue(pos));
        } else {
          r, started := HeadStatus(k, row);
        }
    }

    /** The part of the status request for the head of the queue. */
    method HeadStatus(k: Key, row: Row) returns (r: Response, ghost started: nat)
      requires Valid() && Pending(Machine()) == HeadPlan(k, row.Step(), LastKey(Machine().history)).effects
      requires Pending(Machine()) == [] ==> Idle()
      modifies this`clock, this`run, db, store
      ensures Valid() && Idle() && Extended(old(run), run)
      ensures AsPlanned(HeadPlan(k, row.Step(), LastKey(old(Machine()).history)), old(run), run, r, Faults() > old(Faults()))
      ensures r == Status(ReadyForUpload) ==> Cleared(old(store.objects), store.objects, k)
      ensures r.Status? && r.status != ReadyForUpload ==> store.objects == old(store.objects)
      ensures r.Status? ==> started > old(clock)
      ensures r.Status? ==> DownloadBegun(old(db.rows), db.rows, k, row.Step() == DownloadNotStarted, started)
      ensures Faults() >= old(Faults())
    {
      hide After, Next, UploadPlan, Cleared, Updated, RequirePrevious;
      started := clock + 1;
      match row.Step()
      case DownloadNotStarted =>
        var ok := Commit(k, StartDownload);
        if !ok {
          return Refused(InternalServerError), started;
        }
        started := clock;
        var previous;
        ok, previous := OfferPrevious();
        r := if ok then Status(ReadyToDownloadPrevious(previous)) else Refused(InternalServerError);
      case DownloadStarted(_) =>
        var ok, previous := OfferPrevious();
        r := if ok then Status(ReadyToDownloadPrevious(previous)) else Refused(InternalServerError);
      case ComputeStarted(_) =>
        var ok, previous := OfferPrevious();
        r := if ok then Status(WaitingForContributionWithPrevious(previous)) else Refused(InternalServerError);
      case UploadStarted(_) =>
        var ok := ClearUpload(k);
        r := if ok then Status(ReadyForUpload) else Refused(InternalServerError);
      case Verifying => r := Status(ServerVerifying);
      case VerifyFinished => r := Refused(InternalServerError);
    }

    method HandleUpdateDownloadProgress(k: Key, finished: bool) returns (r: Response)
      requires Valid() && Idle()
      modifies this`clock, this`run, db
      ensures Valid() && Idle()
      ensures Answered(world.config, old(db.rows), old(clock), DownloadProgress(k, finished), old(run), run, r, Faults() > old(Faults()))
      ensures DownloadOutcome(old(db.rows), db.rows, k, finished, r, Faults() > old(Faults()), clock)
    {
      hide After, Next, Answered, RowsOk, Position, Updated, CheckCorrectState, DownloadOutcome;
      var now := Start(DownloadProgress(k, finished));
      var found := db.GetWithPos(k);
      if found.None? {
        r := Refused(InternalServerError);
      } else {
        match CheckCorrectState(found.value.0, found.value.1, DownloadStarted(now))
        case Panics => r := Crashed;
        case Refuse(code) => r := Refused(code);
        case Proceed =>
          var ok := Commit(k, if finished then StartCompute else Touch);
          r := if ok then Done else Refused(InternalServerError);
      }
      AnsweredBy(world.config, old(db.rows), old(clock), DownloadProgress(k, finished), old(run), run, r, Faults() > old(Faults()), now);
      DownloadMeans(world.config, old(db.rows), db.rows, k, finished, r, Faults() > old(Faults()), old(clock), now, clock);
    }

    method HandleUpdateComputeProgress(k: Key, finished: bool) returns (r: Response)
      requires Valid() && Idle()
      modifies this`clock, this`run, db
      ensures Valid() && Idle()
      ensures Answered(world.config, old(db.rows), old(clock), ComputeProgress(k, finished), old(run), run, r, Faults() > old(Faults()))
      ensures ComputeOutcome(old(db.rows), db.rows, k, finished, r, Faults() > old(Faults()), clock)
    {
      hide After, Next, Answered, RowsOk, Position, Updated, CheckCorrectState, ComputeOutcome;
      var now := Start(ComputeProgress(k, finished));
      var found := db.GetWithPos(k);
      if found.None? {
        r := Refused(InternalServerError);
      } else {
        match CheckCorrectState(found.value.0, found.value.1, ComputeStarted(now))
        case Panics => r := Crashed;
        case Refuse(code) => r := Refused(code);
        case Proceed =>
          var ok := Commit(k, if finished then StartUpload else Touch);
          r := if ok then Done else Refused(InternalServerError);
      }
      AnsweredBy(world.config, old(db.rows), old(clock), ComputeProgress(k, finished), old(run), run, r, Faults() > old(Faults()), now);
      ComputeMeans(world.config, old(db.rows), db.rows, k, finished, r, Faults() > old(Faults()), old(clock), now, clock);
    }

    method HandleUpdateUploadProgress(k: Key, finished: bool, hash: string) returns (r: Response)
      requires Valid() && Idle()
      modifies this`clock, this`run, this`jobs, this`nextJob, db, store
      ensures Valid() && Idle()
      ensures Answered(world.config, old(db.rows), old(clock), UploadProgress(k, finished, hash), old(run), run, r,
                Faults() > old(Faults()) || LacksParts(old(db.rows), old(store.objects), k, finished))
      ensures UploadOutcome(old(db.rows), db.rows, old(store.objects), store.objects, k, finished, hash, r, Faults() > old(Faults()), clock)
      ensures jobs == if r == Done && finished then old(jobs)[old(nextJob) := Job(k, hash, Spawned)] else old(jobs)
    {
      hide After, Next, Answered, RowsOk, Position, FinalizeUpload, AllParts, UploadDone, Updated, CheckCorrectState, LacksParts, UploadOutcome;
      var now := Start(UploadProgress(k, finished, hash));
      var found := db.GetWithPos(k);
      if found.None? {
        r := Refused(InternalServerError);
      } else {
        match CheckCorrectState(found.value.0, found.value.1, UploadStarted(now))
        case Panics => r := Crashed;
        case Refuse(code) => r := Refused(code);
        case Proceed =>
          var ok: bool;
          LacksPartsAt(old(db.rows), old(store.objects), k, now);
          if finished {
            ok := FinishTheUpload(k, hash);
          } else {
            ok := Commit(k, Touch);
          }
          r := if ok then Done else Refused(InternalServerError);
      }
      AnsweredBy(world.config, old(db.rows), old(clock), UploadProgress(k, finished, hash), old(run), run, r,
        Faults() > old(Faults()) || LacksParts(old(db.rows), old(store.objects), k, finished), now);
      UploadMeans(world.config, old(db.rows), db.rows, old(store.objects), store.objects, k, finished, hash, r,
        Faults() > old(Faults()), old(clock), now, clock);
    }

    /** The part of the tick for the head of the queue. */
    method TickHead(k: Key, row: Row, now: nat) returns (ok: bool)
      requires Valid() && Pending(Machine()) == TickEffects(world.config, k, row, now)
      requires Pending(Machine()) == [] ==> Idle()
      requires Current(db.rows) == Some(k)
      modifies this`clock, this`run, db
      ensures Valid() && Extended(old(run), run) && Idle()
      ensures clock >= old(clock)
      ensures ok ==> Faults() == old(Faults()) && Stepped(old(run), run, |TickEffects(world.config, k, row, now)|)
      ensures ok ==> Ticked(old(db.rows), db.rows, TickEffects(world.config, k, row, now), k, clock)
      ensures !ok ==> Faults() > old(Faults()) && db.rows == old(db.rows) && TickEffects(world.config, k, row, now) != []
    {
      hide After, Next, Updated, Current;
      ok := true;
      if now - row.updatedTimestamp > world.config.pingTimeout && row.Step() != Verifying {
        ok := CommitKick(PingTimeout(now - row.updatedTimestamp));
        return;
      }
      match row.Step()
      case DownloadNotStarted =>
        ok := Commit(k, StartDownload);
      case DownloadStarted(start) =>
        if now - start > world.config.downloadTimeout {
          ok := CommitKick(DownloadTimeout(now - start));
        }
      case ComputeStarted(start) =>
        if now - start > world.config.contributeTimeout {
          ok := CommitKick(ComputeTimeout(now - start));
        }
      case UploadStarted(start) =>
        if now - start > world.config.uploadTimeout {
          ok := CommitKick(UploadTimeout(now - start));
        }
      case Verifying =>
      case VerifyFinished =>
    }

    method HandleTick() returns (r: Response, ghost time: nat)
      requires Valid() && Idle()
      modifies this`clock, this`run, db
      ensures Valid() && Idle()
      ensures Answered(world.config, old(db.rows), old(clock), Tick, old(run), run, r, Faults() > old(Faults()))
      ensures clock >= time > old(clock)
      ensures r == Done || (r == Refused(InternalServerError) && Faults() > old(Faults()))
      ensures if r == Done then TickOutcomes(world.config, old(db.rows), db.rows, time, clock) else db.rows == old(db.rows)
    {
      hide After, Next, Answered, RowsOk, IsHead, Current, TickEffects, Ticked, TickOutcomes;
      var now := Start(Tick);
      time := now;
      HeadsAreCurrent(db.rows, old(clock));
      CurrentExists(db.rows);
      var head := db.GetCurrent();
      var ok := true;
      if head.Some? {
        ok := TickHead(head.value, db.rows[head.value], now);
      }
      TickDone(world.config, old(db.rows), db.rows, head, ok, now, old(clock), clock);
      r := if ok then Done else Refused(InternalServerError);
      AnsweredBy(world.config, old(db.rows), old(clock), Tick, old(run), run, r, Faults() > old(Faults()), now);
    }

    // ---- Verification jobs ----

    /** The contributor who finished last, read under the mutex. */
    method ChoosePreviousOf(id: nat)
      requires Valid() && Idle() && id in jobs && jobs[id].progress.Spawned?
      modifies this`run, this`jobs
      ensures Valid() && Idle() && TaskExtended(old(run), run, id, false)
      ensures jobs == old(jobs)[id := old(jobs)[id].(progress := Chosen(LastKey(old(Machine()).history)))]
    {
      hide After, Next;
      var previous := MostRecent();
      ChooseStep(world, startClock, run, id);
      run := run + [ChoosePrevious(id)];
      jobs := jobs[id := jobs[id].(progress := Chosen(previous))];
    }

    /** Something went wrong on the way: the job will kick. */
    method FailTask(id: nat)
      requires Valid() && id in jobs && !jobs[id].progress.Passed?
      modifies this`run, this`jobs
      ensures Valid() && (old(Idle()) ==> Idle()) && TaskExtended(old(run), run, id, true)
      ensures jobs == old(jobs)[id := old(jobs)[id].(progress := Failed)]
    {
      hide After, Next;
      FaultStep(world, startClock, run, id);
      run := run + [Fault(id)];
      jobs := jobs[id := jobs[id].(progress := Failed)];
    }

    /** Download, hash and parse the uploaded file. Without a fault, its hash and its parse alone
        decide how the job goes on. */
    method ReadUploaded(id: nat) returns (crashed: bool)
      requires Valid() && id in jobs && jobs[id].progress.Chosen?
      modifies this`run, this`jobs, store`faults
      ensures Valid() && (old(Idle()) ==> Idle()) && store.faults >= old(store.faults)
      ensures TaskExtended(old(run), run, id, store.faults > old(store.faults))
      ensures id in jobs && jobs == old(jobs)[id := old(jobs)[id].(progress := jobs[id].progress)]
      ensures store.faults == old(store.faults) ==> UploadRead(world, old(store.objects), old(jobs)[id], jobs[id].progress, crashed)
      ensures store.faults > old(store.faults) ==> !crashed && jobs[id].progress == Failed
    {
      hide After, Next;
      TaskFilesExist(world, startClock, run, id);
      crashed := false;
      var job := jobs[id];
      var bytes := store.DownloadContribution(job.key);
      if bytes.None? {
        FailTask(id);
        return;
      }
      ReadCurrentStep(world, startClock, run, id);
      if world.hashOf(bytes.value) != job.hash {
        jobs := jobs[id := job.(progress := Failed)];
      } else {
        match world.parse(bytes.value)
        case Accept => jobs := jobs[id := job.(progress := HasCurrent(job.progress.previous, bytes.value))];
        case Reject => jobs := jobs[id := job.(progress := Failed)];
        case Crash => return true;
      }
      run := run + [ReadCurrent(id)];
    }

    /** Download and parse the previous file, if there is one; it has been parsed before. */
    method ReadPreviousFile(id: nat)
      requires Valid() && id in jobs && jobs[id].progress.HasCurrent?
      modifies this`run, this`jobs, store`faults
      ensures Valid() && (old(Idle()) ==> Idle()) && store.faults >= old(store.faults)
      ensures TaskExtended(old(run), run, id, store.faults > old(store.faults))
      ensures id in jobs && jobs == old(jobs)[id := old(jobs)[id].(progress := jobs[id].progress)]
      ensures store.faults == old(store.faults) ==>
        var HasCurrent(previous, bytes) := old(jobs)[id].progress;
        jobs[id].progress == HasBoth(previous, bytes, StoredPrevious(old(store.objects), previous))
      ensures store.faults > old(store.faults) ==> jobs[id].progress == Failed
    {
      hide After, Next;
      TaskFilesExist(world, startClock, run, id);
      var job := jobs[id];
      var HasCurrent(previous, bytes) := job.progress;
      var previousBytes: Option<Bytes> := None;
      if previous.Some? {
        previousBytes := store.DownloadContribution(previous.value);
        if previousBytes.None? {
          FailTask(id);
          return;
        }
      }
      ReadPreviousStep(world, startClock, run, id);
      jobs := jobs[id := job.(progress := HasBoth(previous, bytes, previousBytes))];
      run := run + [ReadPrevious(id)];
    }

    /** The verification itself, on random choices. */
    method JudgeUpload(id: nat, tape: seq<nat>) returns (crashed: bool)
      requires Valid() && id in jobs && jobs[id].progress.HasBoth?
      modifies this`run, this`jobs
      ensures Valid() && (old(Idle()) ==> Idle()) && TaskExtended(old(run), run, id, false)
      ensures id in jobs && jobs == old(jobs)[id := old(jobs)[id].(progress := jobs[id].progress)]
      ensures var HasBoth(previous, bytes, previousBytes) := old(jobs)[id].progress;
        match world.verdict(bytes, previousBytes, tape)
        case Accept => !crashed && jobs[id].progress == Passed(previous, bytes, previousBytes, tape)
        case Reject => !crashed && jobs[id].progress == Failed
        case Crash => crashed
    {
      hide After, Next;
      crashed := false;
      var job := jobs[id];
      var HasBoth(previous, bytes, previousBytes) := job.progress;
      JudgeStep(world, startClock, run, id, tape);
      match world.verdict(bytes, previousBytes, tape) {
        case Accept => jobs := jobs[id := job.(progress := Passed(previous, bytes, previousBytes, tape))];
        case Reject => jobs := jobs[id := job.(progress := Failed)];
        case Crash => return true;
      }
      run := run + [Judge(id, tape)];
    }

    /** `finish_current` or `kick_current`, which do not name anybody: it is the contributor of
        the job who is finished or kicked. A failing statement ends the process. */
    method ConcludeTask(id: nat) returns (crashed: bool)
      requires Valid() && Idle() && id in jobs && (jobs[id].progress.Passed? || jobs[id].progress.Failed?)
      modifies this`clock, this`run, this`jobs, db
      ensures Valid() && Idle() && TaskExtended(old(run), run, id, false)
      ensures crashed <==> db.faults > old(db.faults)
      ensures db.faults >= old(db.faults)
      ensures !crashed ==> jobs == old(jobs) - {id}
      ensures !crashed ==> ConcludedRows(old(db.rows), db.rows, old(jobs)[id].key, old(jobs)[id].progress.Passed?, clock)
    {
      hide After, Next, Current, IsHead, Updated, ConcludedRows;
      var now: nat :| now > clock;
      ConcludeStep(world, startClock, run, id, now - clock - 1);
      var ok: bool;
      ghost var who;
      if jobs[id].progress.Passed? {
        ok, who := db.FinishCurrent(now);
      } else {
        ok, who := db.KickCurrent(VerificationFailed, now);
      }
      if !ok {
        return true;
      }
      run := run + [Conclude(id, now - clock - 1)];
      jobs := jobs - {id};
      clock := now;
      crashed := false;
    }

    /** Reading both files and judging them: the job passes or fails, by the verdict alone. */
    method JudgeFiles(id: nat, tape: seq<nat>) returns (crashed: bool)
      requires Valid() && id in jobs && jobs[id].progress.Chosen?
      modifies this`run, this`jobs, store`faults
      ensures Valid() && (old(Idle()) ==> Idle()) && store.faults >= old(store.faults)
      ensures TaskExtended(old(run), run, id, store.faults > old(store.faults))
      ensures id in jobs && jobs == old(jobs)[id := old(jobs)[id].(progress := jobs[id].progress)]
      ensures store.faults == old(store.faults) ==>
        Judged(TaskVerdict(world, old(store.objects), old(jobs)[id], old(jobs)[id].progress.previous, tape), jobs[id].progress, crashed)
      ensures store.faults > old(store.faults) ==> !crashed && jobs[id].progress == Failed
      ensures !crashed ==> jobs[id].progress.Passed? || jobs[id].progress.Failed?
    {
      hide After, Next, UploadRead, TaskVerdict;
      crashed := ReadUploaded(id);
      VerdictOfRead(world, store.objects, old(jobs)[id], jobs[id].progress, crashed, tape);
      if crashed || jobs[id].progress.Failed? {
        return;
      }
      ReadPreviousFile(id);
      if jobs[id].progress.HasBoth? {
        crashed := JudgeUpload(id, tape);
      }
    }

    /** The spawned job from its start to its end. Without a fault it ends the process exactly when
        the parser or the verifier crash, and otherwise the contributor is finished exactly when
        the hash, the parse and the verification on the given random choices all accept, and
        kicked when one does not. */
    method RunVerify(id: nat, tape: seq<nat>) returns (crashed: bool)
      requires Valid() && Idle() && id in jobs && jobs[id].progress.Spawned?
      modifies this`clock, this`run, this`jobs, db, store`faults
      ensures Valid() && Idle() && Faults() >= old(Faults())
      ensures TaskExtended(old(run), run, id, store.faults > old(store.faults))
      ensures var verdict := TaskVerdict(world, old(store.objects), old(jobs)[id], old(MostRecentFinished(db.rows)), tape);
        && (Faults() == old(Faults()) ==> (crashed <==> verdict == Crash))
        && (Faults() == old(Faults()) && !crashed ==>
              ConcludedRows(old(db.rows), db.rows, old(jobs)[id].key, verdict == Accept, clock))
      ensures !crashed && store.faults > old(store.faults) ==> ConcludedRows(old(db.rows), db.rows, old(jobs)[id].key, false, clock)
      ensures !crashed ==> jobs == old(jobs) - {id}
    {
      hide After, Next, MostRecentFinished, ConcludedRows, TaskVerdict;
      TaskFilesExist(world, startClock, run, id);
      ChoosePreviousOf(id);
      VerdictOfJob(world, store.objects, old(jobs)[id], jobs[id].progress, old(MostRecentFinished(db.rows)), tape);
      crashed := JudgeFiles(id, tape);
      if !crashed {
        crashed := ConcludeTask(id);
      }
    }

    // ---- Clients ----

    /** A client uploads a part to a signed URL, at any time and past the mutex. */
    method ReceivePart(k: Key, i: nat, bytes: Bytes)
      requires Valid()
      modifies this`run, store
      ensures Valid() && (old(Idle()) ==> Idle()) && run == old(run) + [PutPart(k, i, bytes)]
      ensures store.objects == old(store.objects)[Part(k, i) := bytes]
    {
      hide After;
      AfterOneMore(world, Initial(startClock), run, PutPart(k, i, bytes));
      store.PutPart(k, i, bytes);
      run := run + [PutPart(k, i, bytes)];
    }

    // ---- What the state holds ----

    /** At any moment, take the finished contributors in the order of the listing: each has a file
        with the announced hash that was accepted against the file of the one before it. */
    lemma HoldsAcceptedChain(keys: seq<Key>, i: nat)
      requires Valid() && IsFinishedList(db.rows, keys) && i < |keys|
      ensures |Machine().history| == |keys|
      ensures Link(world, db.rows, store.objects, keys[i], KeyBefore(keys, i), Machine().history[i].tape)
    {
      hide After, Link, IsFinishedList;
      AcceptedChain(world, startClock, run, keys, i);
    }
  }
}
