/** The ceremony server as a state machine: handlers that hold the mutex from their first
    statement to their last, verification jobs that run beside them, and uploads of clients. */
module Ceremony {
  import opened Outcomes
  import opened Octets
  import opened ContributorsDb
  import opened ContributionFiles

  // ---- Surroundings ----

  datatype Config = Config(
    stopped: bool,
    pingTimeout: int,
    downloadTimeout: int,
    contributeTimeout: int,
    uploadTimeout: int)

  datatype Verdict = Accept | Reject | Crash

  /** What the server calls but this machine does not look into: the hash, the parser and the
      verification of a contribution against the previous one, given what is drawn at random.
      Each of the last two ends with a value, with an error, or with a panic. */
  datatype World = World(
    config: Config,
    hashOf: Bytes -> string,
    parse: Bytes -> Verdict,
    verdict: (Bytes, Option<Bytes>, seq<nat>) -> Verdict)

  // ---- Messages ----

  datatype Msg =
    | RegisterMsg(key: Key, name: string, email: string)
    | JoinMsg(key: Key)
    | GetStatus(key: Key)
    | DownloadProgress(key: Key, finished: bool)
    | ComputeProgress(key: Key, finished: bool)
    | UploadProgress(key: Key, finished: bool, hash: string)
    | Tick

  datatype StatusResponse =
    | DidntJoin
    | WasKicked(reason: Option<KickReason>)
    | WaitingInQueue(position: nat)
    | ReadyToDownloadPrevious(previous: Option<Key>)
    | WaitingForContributionWithPrevious(previous: Option<Key>)
    | ReadyForUpload
    | ServerVerifying
    | FinishedContributing

  datatype Code = BadRequest | Gone | Forbidden | InternalServerError

  datatype Response = Done | Status(status: StatusResponse) | Refused(code: Code) | Crashed

  // ---- Effects: the storage operations of a handler, in order ----

  datatype Effect =
    | Write(key: Key, move: Move)
    | KickCurrent(reason: KickReason)
    | Drop(target: Object)                       // delete, when it exists
    | Delete(target: Object)                     // delete; an error when it does not exist
    | Require(target: Object)                    // an error when it does not exist
    | Compose(key: Key)
    | FinishAndVerify(key: Key, hash: string)    // mark the upload finished and spawn the job

  datatype Plan = Plan(effects: seq<Effect>, response: Response)

  /** The objects of a contributor that `get_upload_plan` deletes. */
  function UploadPlan(k: Key): seq<Effect> {
    [Drop(Whole(k))] + seq(PARALLEL_UPLOAD_PARTS, i requires 0 <= i < PARALLEL_UPLOAD_PARTS => Drop(Part(k, i)))
  }

  function FinalizeUpload(k: Key): seq<Effect> {
    [Compose(k)] + seq(PARALLEL_UPLOAD_PARTS, i requires 0 <= i < PARALLEL_UPLOAD_PARTS => Delete(Part(k, i)))
  }

  function RequirePrevious(previous: Option<Key>): seq<Effect> {
    if previous.Some? then [Require(Whole(previous.value))] else []
  }

  datatype Checked = Proceed | Refuse(code: Code) | Panics

  predicate SameVariant(a: ContributionStep, b: ContributionStep) {
    match a
    case DownloadNotStarted => b.DownloadNotStarted?
    case DownloadStarted(_) => b.DownloadStarted?
    case ComputeStarted(_) => b.ComputeStarted?
    case UploadStarted(_) => b.UploadStarted?
    case Verifying => b.Verifying?
    case VerifyFinished => b.VerifyFinished?
  }

  /** `check_correct_state`; the error of a kicked row is expected to be there. */
  function CheckCorrectState(pos: nat, row: Row, expected: ContributionStep): Checked {
    if row.status == Kicked then
      if row.kickedError.None? then Panics else Refuse(Gone)
    else if pos > 0 then Refuse(Gone)
    else if !SameVariant(row.Step(), expected) then Refuse(BadRequest)
    else Proceed
  }

  function PlanJoin(config: Config, rows: Rows, k: Key): Plan {
    if config.stopped then Plan([], Refused(Forbidden))
    else if k !in rows then Plan([], Refused(InternalServerError))
    else
      match rows[k].status
      case DidntJoinQueue | Kicked => Plan([Write(k, Join)], Done)
      case Queued => Plan([], Refused(BadRequest))
      case Finished => Plan([], Refused(BadRequest))
  }

  /** The status request of the head, given who finished last. */
  function HeadPlan(k: Key, step: ContributionStep, previous: Option<Key>): Plan {
    match step
    case DownloadNotStarted => Plan([Write(k, StartDownload)] + RequirePrevious(previous), Status(ReadyToDownloadPrevious(previous)))
    case DownloadStarted(_) => Plan(RequirePrevious(previous), Status(ReadyToDownloadPrevious(previous)))
    case ComputeStarted(_) => Plan(RequirePrevious(previous), Status(WaitingForContributionWithPrevious(previous)))
    case UploadStarted(_) => Plan(UploadPlan(k), Status(ReadyForUpload))
    case Verifying => Plan([], Status(ServerVerifying))
    case VerifyFinished => Plan([], Refused(InternalServerError))
  }

  ghost function PlanHeadStatus(rows: Rows, k: Key): Plan
    requires k in rows
  {
    HeadPlan(k, rows[k].Step(), MostRecentFinished(rows))
  }

  ghost function PlanStatus(rows: Rows, k: Key): Plan {
    if k !in rows then Plan([], Refused(InternalServerError))
    else
      var row := rows[k];
      var rest := match row.status
        case DidntJoinQueue => Plan([], Status(DidntJoin))
        case Kicked => Plan([], Status(WasKicked(row.kickedError)))
        case Finished => Plan([], Status(FinishedContributing))
        case Queued =>
          if Position(rows, k) > 0 then Plan([], Status(WaitingInQueue(Position(rows, k))))
          else PlanHeadStatus(rows, k);
      Plan([Write(k, Touch)] + rest.effects, rest.response)
  }

  /** A progress message: checked against the step it belongs to, then either the next step is
      started or the row is touched. */
  function PlanProgress(rows: Rows, k: Key, expected: ContributionStep, finished: bool, next: seq<Effect>): Plan {
    if k !in rows then Plan([], Refused(InternalServerError))
    else
      match CheckCorrectState(Position(rows, k), rows[k], expected)
      case Panics => Plan([], Crashed)
      case Refuse(code) => Plan([], Refused(code))
      case Proceed => Plan(if finished then next else [Write(k, Touch)], Done)
  }

  function TickEffects(config: Config, k: Key, row: Row, now: nat): seq<Effect> {
    if now - row.updatedTimestamp > config.pingTimeout && row.Step() != Verifying then
      [KickCurrent(PingTimeout(now - row.updatedTimestamp))]
    else
      match row.Step()
      case DownloadNotStarted => [Write(k, StartDownload)]
      case DownloadStarted(start) =>
        if now - start > config.downloadTimeout then [KickCurrent(DownloadTimeout(now - start))] else []
      case ComputeStarted(start) =>
        if now - start > config.contributeTimeout then [KickCurrent(ComputeTimeout(now - start))] else []
      case UploadStarted(start) =>
        if now - start > config.uploadTimeout then [KickCurrent(UploadTimeout(now - start))] else []
      case Verifying => []
      case VerifyFinished => []
  }

  ghost function PlanTick(config: Config, rows: Rows, now: nat): Plan {
    var head := Current(rows);
    if head.None? then Plan([], Done)
    else
      CurrentExists(rows);
      Plan(TickEffects(config, head.value, rows[head.value], now), Done)
  }

  /** What the handler of a message does with a table, and what it answers. */
  ghost function PlanOf(config: Config, rows: Rows, msg: Msg, now: nat): Plan {
    match msg
    case RegisterMsg(k, name, email) =>
      if k in rows then Plan([], Refused(InternalServerError)) else Plan([Write(k, Register(name, email))], Done)
    case JoinMsg(k) => PlanJoin(config, rows, k)
    case GetStatus(k) => PlanStatus(rows, k)
    case DownloadProgress(k, finished) =>
      PlanProgress(rows, k, DownloadStarted(now), finished, [Write(k, StartCompute)])
    case ComputeProgress(k, finished) =>
      PlanProgress(rows, k, ComputeStarted(now), finished, [Write(k, StartUpload)])
    case UploadProgress(k, finished, hash) =>
      PlanProgress(rows, k, UploadStarted(now), finished, FinalizeUpload(k) + [FinishAndVerify(k, hash)])
    case Tick => PlanTick(config, rows, now)
  }

  // ---- States ----

  /** A handler between two of its storage operations. */
  datatype Handler = Handler(msg: Msg, begun: nat, effects: seq<Effect>, response: Response)

  datatype Progress =
    | Spawned
    | Chosen(previous: Option<Key>)
    | HasCurrent(previous: Option<Key>, bytes: Bytes)
    | HasBoth(previous: Option<Key>, bytes: Bytes, previousBytes: Option<Bytes>)
    | Passed(previous: Option<Key>, bytes: Bytes, previousBytes: Option<Bytes>, tape: seq<nat>)
    | Failed

  /** A verification job. */
  datatype Job = Job(key: Key, hash: string, progress: Progress)

  /** A finished contribution, and what was drawn when it was accepted. */
  datatype Verified = Verified(key: Key, tape: seq<nat>)

  /** `history` and `lastTick` are kept for the statements only: the contributions in the order
      in which they were accepted, and the time read by the last tick that ran to its end. */
  datatype State = State(
    rows: Rows,
    files: Files,
    jobs: map<nat, Job>,
    nextJob: nat,
    clock: nat,
    handler: Option<Handler>,
    history: seq<Verified>,
    lastTick: nat)

  function Initial(clock: nat): State {
    State(map[], map[], map[], 0, clock, None, [], clock)
  }

  // ---- Steps ----

  datatype Event =
    | Begin(msg: Msg, gap: nat)          // take the mutex and decide what to do
    | Perform(gap: nat)                  // the next storage operation of the handler
    | Abort                              // it fails, or the request is dropped
    | PutPart(key: Key, index: nat, bytes: Bytes)
    | DropForeign(target: Object)        // a deletion for a contributor who is not registered
    | ChoosePrevious(id: nat)
    | ReadCurrent(id: nat)
    | ReadPrevious(id: nat)
    | Judge(id: nat, tape: seq<nat>)
    | Fault(id: nat)                     // an operation of the job fails
    | Conclude(id: nat, gap: nat)        // finish or kick the current contributor

  /** The effect on the storage, or nothing when the operation fails. */
  ghost function Effected(s: State, effect: Effect, now: nat): Option<State> {
    match effect
    case Write(k, move) => Some(s.(rows := Updated(s.rows, k, move, now)))
    case KickCurrent(reason) =>
      var head := Current(s.rows);
      if head.None? then None else Some(s.(rows := Updated(s.rows, head.value, Kick(reason), now)))
    case Drop(o) => Some(s.(files := s.files - {o}))
    case Delete(o) => if o in s.files then Some(s.(files := s.files - {o})) else None
    case Require(o) => if o in s.files then Some(s) else None
    case Compose(k) => if AllParts(s.files, k) then Some(s.(files := AfterCompose(s.files, k))) else None
    case FinishAndVerify(k, hash) =>
      Some(s.(rows := Updated(s.rows, k, FinishUpload(hash), now),
              jobs := s.jobs[s.nextJob := Job(k, hash, Spawned)],
              nextJob := s.nextJob + 1))
  }

  function Released(s: State): State {
    s.(handler := None)
  }

  /** The handler ends, or goes on with the remaining effects. */
  function Continued(s: State, h: Handler, effects: seq<Effect>): State {
    if effects == [] then
      s.(handler := None, lastTick := if h.msg.Tick? then h.begun else s.lastTick)
    else
      s.(handler := Some(h.(effects := effects)))
  }

  ghost function Begun(w: World, s: State, msg: Msg, gap: nat): State {
    var now := s.clock + 1 + gap;
    var plan := PlanOf(w.config, s.rows, msg, now);
    Continued(s.(clock := now), Handler(msg, now, plan.effects, plan.response), plan.effects)
  }

  ghost function Performed(s: State, gap: nat): State
    requires s.handler.Some? && s.handler.value.effects != []
  {
    var now := s.clock + 1 + gap;
    var h := s.handler.value;
    var s' := Effected(s.(clock := now), h.effects[0], now);
    if s'.None? then Released(s.(clock := now)) else Continued(s'.value, h, h.effects[1..])
  }

  function WithJob(s: State, id: nat, progress: Progress): State
    requires id in s.jobs
  {
    s.(jobs := s.jobs[id := s.jobs[id].(progress := progress)])
  }

  /** Download the uploaded file, compare its hash and parse it. A panic ends the process, so
      there is no further state. */
  function AfterReadCurrent(w: World, s: State, id: nat): State
    requires id in s.jobs && s.jobs[id].progress.Chosen?
  {
    var job := s.jobs[id];
    var o := Whole(job.key);
    if o !in s.files || w.hashOf(s.files[o]) != job.hash then WithJob(s, id, Failed)
    else
      match w.parse(s.files[o])
      case Accept => WithJob(s, id, HasCurrent(job.progress.previous, s.files[o]))
      case Reject => WithJob(s, id, Failed)
      case Crash => s
  }

  function AfterReadPrevious(w: World, s: State, id: nat): State
    requires id in s.jobs && s.jobs[id].progress.HasCurrent?
  {
    var job := s.jobs[id];
    var HasCurrent(previous, bytes) := job.progress;
    if previous.None? then WithJob(s, id, HasBoth(previous, bytes, None))
    else
      var o := Whole(previous.value);
      if o !in s.files then WithJob(s, id, Failed)
      else
        match w.parse(s.files[o])
        case Accept => WithJob(s, id, HasBoth(previous, bytes, Some(s.files[o])))
        case Reject => WithJob(s, id, Failed)
        case Crash => s
  }

  function AfterJudge(w: World, s: State, id: nat, tape: seq<nat>): State
    requires id in s.jobs && s.jobs[id].progress.HasBoth?
  {
    var HasBoth(previous, bytes, previousBytes) := s.jobs[id].progress;
    match w.verdict(bytes, previousBytes, tape)
    case Accept => WithJob(s, id, Passed(previous, bytes, previousBytes, tape))
    case Reject => WithJob(s, id, Failed)
    case Crash => s
  }

  /** `finish_current` or `kick_current`: whoever is current, not the contributor of the job.
      With nobody queued the server's expectation fails and the process ends. */
  ghost function Concluded(s: State, id: nat, gap: nat): State
    requires id in s.jobs
  {
    var now := s.clock + 1 + gap;
    var head := Current(s.rows);
    var job := s.jobs[id];
    if head.None? then s
    else if job.progress.Passed? then
      s.(rows := Updated(s.rows, head.value, FinishVerify, now),
         jobs := s.jobs - {id}, clock := now,
         history := s.history + [Verified(head.value, job.progress.tape)])
    else
      s.(rows := Updated(s.rows, head.value, Kick(VerificationFailed), now), jobs := s.jobs - {id}, clock := now)
  }

  /** Whether an event can happen. */
  predicate CanHappen(s: State, e: Event) {
    match e
    case Begin(_, _) => s.handler.None?
    case Perform(_) => s.handler.Some? && s.handler.value.effects != []
    case Abort => s.handler.Some?
    case PutPart(_, _, _) => true
    case DropForeign(o) => o.key !in s.rows
    case ChoosePrevious(id) => s.handler.None? && id in s.jobs && s.jobs[id].progress.Spawned?
    case ReadCurrent(id) => id in s.jobs && s.jobs[id].progress.Chosen?
    case ReadPrevious(id) => id in s.jobs && s.jobs[id].progress.HasCurrent?
    case Judge(id, _) => id in s.jobs && s.jobs[id].progress.HasBoth?
    case Fault(id) => id in s.jobs && !s.jobs[id].progress.Passed?
    case Conclude(id, _) => s.handler.None? && id in s.jobs && (s.jobs[id].progress.Passed? || s.jobs[id].progress.Failed?)
  }

  /** The state after an event; an event that cannot happen changes nothing. */
  ghost function Next(w: World, s: State, e: Event): State {
    if !CanHappen(s, e) then s
    else
      match e
      case Begin(msg, gap) => Begun(w, s, msg, gap)
      case Perform(gap) => Performed(s, gap)
      case Abort => Released(s)
      case PutPart(k, i, bytes) => s.(files := s.files[Part(k, i) := bytes])
      case DropForeign(o) => s.(files := s.files - {o})
      case ChoosePrevious(id) => WithJob(s, id, Chosen(MostRecentFinished(s.rows)))
      case ReadCurrent(id) => AfterReadCurrent(w, s, id)
      case ReadPrevious(id) => AfterReadPrevious(w, s, id)
      case Judge(id, tape) => AfterJudge(w, s, id, tape)
      case Fault(id) => WithJob(s, id, Failed)
      case Conclude(id, gap) => Concluded(s, id, gap)
  }

  /** The state after a run. */
  ghost function After(w: World, s: State, run: seq<Event>): State {
    if run == [] then s else Next(w, After(w, s, run[..|run| - 1]), run[|run| - 1])
  }
}
