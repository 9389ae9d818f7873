/** How the queue moves over a run, and what a contributor is told about it. */
module QueueRuns {
  import opened Outcomes
  import opened ContributorsDb
  import opened QueueLaws
  import opened Ceremony
  import opened CeremonyInvariant
  import opened CeremonySteps
  import opened CeremonyEvents
  import opened CeremonyTasks
  import opened CeremonySafety

  // ---- The write of an event ----

  /** The rows after an event are those before it, or those after one write that the invariant
      allows, at the time of the event. */
  ghost predicate OneWrite(s: State, s': State, k: Key, move: Move) {
    Enabled(s.rows, k, move) && s.clock < s'.clock && s'.rows == Updated(s.rows, k, move, s'.clock)
  }

  ghost predicate AtMostOneWrite(s: State, s': State) {
    s'.rows == s.rows || exists k, move :: OneWrite(s, s', k, move)
  }

  lemma EffectWrites(s: State, effect: Effect, now: nat)
    requires s.clock < now && EffectOk(s.rows, effect) && Effected(s.(clock := now), effect, now).Some?
    requires RowsOk(s.rows, s.clock)
    ensures Effected(s.(clock := now), effect, now).value.clock == now
    ensures AtMostOneWrite(s, Effected(s.(clock := now), effect, now).value)
  {
    hide RowsOk, Updated, IsHead;
    var s' := Effected(s.(clock := now), effect, now).value;
    match effect
    case Write(k, move) => assert OneWrite(s, s', k, move);
    case KickCurrent(reason) =>
      var k :| IsHead(s.rows, k) && !VerifyingHead(s.rows, k);
      CurrentKnown(s.rows, k, s.clock);
      assert OneWrite(s, s', k, Kick(reason));
    case FinishAndVerify(k, hash) => assert OneWrite(s, s', k, FinishUpload(hash));
    case _ =>
  }

  lemma PerformWrites(w: World, s: State, gap: nat)
    requires Inv(w, s) && s.handler.Some? && s.handler.value.effects != []
    ensures AtMostOneWrite(s, Performed(s, gap))
  {
    hide Effected, RowsOk, EffectOk, Updated, Stored;
    InvRows(w, s);
    var h := s.handler.value;
    var now := s.clock + 1 + gap;
    FirstIsOk(s.rows, s.files, h.effects);
    if Effected(s.(clock := now), h.effects[0], now).Some? {
      EffectWrites(s, h.effects[0], now);
      var t := Effected(s.(clock := now), h.effects[0], now).value;
      if t.rows != s.rows {
        var k, move :| OneWrite(s, t, k, move);
        assert OneWrite(s, Performed(s, gap), k, move);
      }
    }
  }

  lemma ConcludeWrites(w: World, s: State, id: nat, gap: nat)
    requires Inv(w, s) && CanHappen(s, Conclude(id, gap))
    ensures AtMostOneWrite(s, Concluded(s, id, gap))
  {
    TaskConcludesItsOwn(w, s, id);
    TaskData(w, s, id);
    hide Inv, RowsOk, Current, Updated, IsHead;
    var k := s.jobs[id].key;
    var s' := Concluded(s, id, gap);
    if s.jobs[id].progress.Passed? {
      assert OneWrite(s, s', k, FinishVerify);
    } else {
      assert OneWrite(s, s', k, Kick(VerificationFailed));
    }
  }

  lemma NextWrites(w: World, s: State, e: Event)
    requires Inv(w, s)
    ensures AtMostOneWrite(s, Next(w, s, e)) && s.clock <= Next(w, s, e).clock
  {
    hide Inv, Performed, Concluded, PlanOf, OneWrite;
    if CanHappen(s, e) {
      match e
      case Perform(gap) => InvHandler(w, s); PerformWrites(w, s, gap); PerformClock(s, gap);
      case Conclude(id, gap) => ConcludeWrites(w, s, id, gap); ConcludeClock(s, id, gap);
      case _ =>
    }
  }

  lemma PerformClock(s: State, gap: nat)
    requires s.handler.Some? && s.handler.value.effects != []
    ensures Performed(s, gap).clock == s.clock + 1 + gap
  {
  }

  lemma ConcludeClock(s: State, id: nat, gap: nat)
    requires id in s.jobs
    ensures s.clock <= Concluded(s, id, gap).clock
  {
  }

  // ---- The queue ----

  ghost predicate JoinedAtEnd(rows: Rows, rows': Rows, k: Key) {
    && !IsQueued(rows, k) && IsQueued(rows', k)
    && QueuedKeys(rows') == QueuedKeys(rows) + {k}
    && Position(rows', k) == |QueuedKeys(rows)|
    && forall j | IsQueued(rows, j) :: IsQueued(rows', j) && Position(rows', j) == Position(rows, j)
  }

  ghost predicate LeftFromHead(rows: Rows, rows': Rows, k: Key) {
    && IsQueued(rows, k) && Position(rows, k) == 0
    && QueuedKeys(rows') == QueuedKeys(rows) - {k}
    && forall j | j != k && IsQueued(rows, j) :: IsQueued(rows', j) && Position(rows', j) == Position(rows, j) - 1
  }

  lemma MoveOfQueue(rows: Rows, k: Key, move: Move, clock: nat, now: nat)
    requires RowsOk(rows, clock) && Enabled(rows, k, move) && clock < now
    ensures var rows' := Updated(rows, k, move, now);
      && (KeepsQueue(move) ==> SameQueue(rows, rows') && forall j | j in rows :: j in rows' && Position(rows', j) == Position(rows, j))
      && (move.Join? ==> JoinedAtEnd(rows, rows', k))
      && (move.FinishVerify? || move.Kick? ==> LeftFromHead(rows, rows', k))
  {
    hide RowOk, IsHead;
    if KeepsQueue(move) {
      hide RowsOk, Position;
      QueueKept(rows, k, move, now);
    } else if move.Join? {
      Joined(rows, k, clock, now);
    } else {
      HeadIsQueued(rows, k);
      HeadLeft(rows, k, move, clock, now);
    }
  }

  /** In every event the queue stays as it is, or one contributor joins at its end, or its head
      leaves and all others move up by one. */
  lemma QueueMoves(w: World, s: State, e: Event)
    requires Inv(w, s)
    ensures var s' := Next(w, s, e);
      || SameQueue(s.rows, s'.rows)
      || (exists k :: JoinedAtEnd(s.rows, s'.rows, k))
      || (exists k :: LeftFromHead(s.rows, s'.rows, k))
  {
    hide Inv, RowsOk, Next, Updated, Enabled, JoinedAtEnd, LeftFromHead, SameQueue;
    NextWrites(w, s, e);
    InvRows(w, s);
    var s' := Next(w, s, e);
    if s'.rows == s.rows {
      QueueSame(s.rows);
    } else {
      var k, move :| OneWrite(s, s', k, move);
      MoveOfQueue(s.rows, k, move, s.clock, s'.clock);
    }
  }

  lemma QueueSame(rows: Rows)
    ensures SameQueue(rows, rows)
  {
  }

  // ---- Progress of one contributor ----

  function StepIndex(step: ContributionStep): int {
    match step
    case DownloadNotStarted => 0
    case DownloadStarted(_) => 1
    case ComputeStarted(_) => 2
    case UploadStarted(_) => 3
    case Verifying => 4
    case VerifyFinished => 5
  }

  /** Where a contributor is within one turn: waiting, by the negated position, then the steps
      of the head, then finished or kicked. */
  function Rank(rows: Rows, k: Key): int
    requires k in rows
  {
    match rows[k].status
    case Queued => if Position(rows, k) > 0 then 0 - Position(rows, k) else StepIndex(rows[k].Step())
    case Finished => 5
    case Kicked => 6
    case DidntJoinQueue => 7
  }

  /** The possible changes within one turn. */
  predicate RankEdge(r: int, r': int) {
    r' == r || (r <= 4 && r' == r + 1) || (0 <= r <= 4 && r' == 6)
  }

  ghost predicate SameTurn(rows: Rows, rows': Rows, k: Key) {
    k in rows && k in rows' && rows[k].joinedAt.Some? && rows'[k].joinedAt == rows[k].joinedAt
  }

  lemma RowRank(row: Row, move: Move, clock: nat, now: nat)
    requires RowOk(row, clock) && row.status == Queued && !move.Join? && !move.Register?
    requires match move
      case StartDownload => row.Step() == DownloadNotStarted
      case StartCompute => row.Step().DownloadStarted?
      case StartUpload => row.Step().ComputeStarted?
      case FinishUpload(_) => row.Step().UploadStarted?
      case FinishVerify => row.Step() == Verifying
      case _ => true
    ensures var row' := Moved(row, move, now);
      && (row'.status == Queued ==> row'.Step() == row.Step() || StepIndex(row'.Step()) == StepIndex(row.Step()) + 1)
      && (row'.status == Finished ==> StepIndex(row.Step()) == 4)
      && (row'.status == Queued || row'.status == Finished || row'.status == Kicked)
      && (row'.status == Finished ==> move.FinishVerify?) && (row'.status == Kicked ==> move.Kick?)
  {
  }

  lemma RankMoves(rows: Rows, k: Key, move: Move, clock: nat, now: nat, j: Key)
    requires RowsOk(rows, clock) && Enabled(rows, k, move) && clock < now
    requires SameTurn(rows, Updated(rows, k, move, now), j)
    ensures RankEdge(Rank(rows, j), Rank(Updated(rows, k, move, now), j))
  {
    hide RowsOk;
    var rows' := Updated(rows, k, move, now);
    MoveOfQueue(rows, k, move, clock, now);
    RowsKnown(rows, j, clock);
    if IsQueued(rows, j) {
      if j == k && !move.Register? {
        QueuedRank(rows, k, move, clock, now);
      } else if KeepsQueue(move) {
        StepKept(rows, k, move, now, j) by {
          assert j != k || move.Register?;
        }
      } else if !move.Join? {
        OthersMoveUp(rows, k, move, clock, now, j);
      }
    }
  }

  lemma RowsKnown(rows: Rows, j: Key, clock: nat)
    requires RowsOk(rows, clock) && j in rows
    ensures RowOk(rows[j], clock)
  {
  }

  lemma QueuedRank(rows: Rows, k: Key, move: Move, clock: nat, now: nat)
    requires RowsOk(rows, clock) && Enabled(rows, k, move) && clock < now && IsQueued(rows, k) && !move.Register?
    ensures RankEdge(Rank(rows, k), Rank(Updated(rows, k, move, now), k))
  {
    hide RowsOk, Position, IsHead, RowOk;
    RowsKnown(rows, k, clock);
    if IsHead(rows, k) {
      HeadHasPositionZero(rows, k, clock);
    }
    if KeepsQueue(move) {
      QueueKept(rows, k, move, now);
    }
    if !move.Join? {
      RowRank(rows[k], move, clock, now);
    }
  }

  lemma HeadHasPositionZero(rows: Rows, k: Key, clock: nat)
    requires RowsOk(rows, clock) && IsHead(rows, k)
    ensures Position(rows, k) == 0
  {
    assert Ahead(rows, k) == {};
  }

  lemma OthersMoveUp(rows: Rows, k: Key, move: Move, clock: nat, now: nat, j: Key)
    requires RowsOk(rows, clock) && Enabled(rows, k, move) && (move.FinishVerify? || move.Kick?) && j != k && IsQueued(rows, j)
    ensures Rank(Updated(rows, k, move, now), j) == Rank(rows, j) + 1
  {
    hide RowOk;
    HeadLeft(rows, k, move, clock, now);
    QueuedStarted(rows, j, clock);
    if IsHead(rows, j) {
      HeadUnique(rows, j, k, clock);
    }
    OthersBehind(rows, j, k, clock);
  }

  lemma OthersBehind(rows: Rows, j: Key, k: Key, clock: nat)
    requires RowsOk(rows, clock) && IsQueued(rows, j) && IsHead(rows, k) && j != k
    ensures Position(rows, j) > 0
  {
    HeadHasPositionZero(rows, k, clock);
    if Position(rows, j) == 0 {
      PositionsDiffer(rows, j, k, clock);
    }
  }

  /** Within a turn a contributor goes through the ranks one by one, up to being verified, and
      ends finished, or kicked from the head. */
  lemma RankNext(w: World, s: State, e: Event, k: Key)
    requires Inv(w, s) && SameTurn(s.rows, Next(w, s, e).rows, k)
    ensures RankEdge(Rank(s.rows, k), Rank(Next(w, s, e).rows, k))
  {
    hide Inv, RowsOk, Next, Updated, Enabled, RankEdge, Rank;
    NextWrites(w, s, e);
    InvRows(w, s);
    var s' := Next(w, s, e);
    if s'.rows == s.rows {
      EdgeSelf(Rank(s.rows, k));
    } else {
      var j, move :| OneWrite(s, s', j, move);
      RankMoves(s.rows, j, move, s.clock, s'.clock, k);
    }
  }

  lemma EdgeSelf(r: int)
    ensures RankEdge(r, r)
  {
  }

  // ---- Turns over runs ----

  /** The time of joining only grows, so one that is the same at both ends was the same all along. */
  ghost predicate JoinedLater(rows: Rows, rows': Rows, k: Key, clock: nat) {
    k in rows ==> k in rows' && (rows'[k].joinedAt == rows[k].joinedAt || Before(Some(clock), rows'[k].joinedAt))
  }

  lemma WriteJoins(rows: Rows, j: Key, move: Move, clock: nat, now: nat, k: Key)
    requires clock < now
    ensures JoinedLater(rows, Updated(rows, j, move, now), k, clock)
  {
  }

  lemma NextJoins(w: World, s: State, e: Event, k: Key)
    requires Inv(w, s)
    ensures JoinedLater(s.rows, Next(w, s, e).rows, k, s.clock)
  {
    hide Inv, RowsOk, Next, Updated, Enabled;
    NextWrites(w, s, e);
    var s' := Next(w, s, e);
    if s'.rows != s.rows {
      var j, move :| OneWrite(s, s', j, move);
      WriteJoins(s.rows, j, move, s.clock, s'.clock, k);
    }
  }

  lemma {:induction false} RunJoins(w: World, s: State, run: seq<Event>, k: Key)
    requires Inv(w, s)
    ensures JoinedLater(s.rows, After(w, s, run).rows, k, s.clock) && s.clock <= After(w, s, run).clock
  {
    hide Inv, Next;
    if run != [] {
      var t := After(w, s, run[..|run| - 1]);
      RunJoins(w, s, run[..|run| - 1], k);
      RunFrom(w, s, run[..|run| - 1]);
      NextJoins(w, t, run[|run| - 1], k);
      NextWrites(w, t, run[|run| - 1]);
    }
  }

  lemma TurnBetween(w: World, s: State, t: State, e: Event, k: Key, clock: nat)
    requires Inv(w, s) && Inv(w, t) && s.clock <= t.clock && k in s.rows
    requires JoinedLater(s.rows, t.rows, k, s.clock) && JoinedLater(t.rows, Next(w, t, e).rows, k, t.clock)
    requires SameTurn(s.rows, Next(w, t, e).rows, k)
    ensures SameTurn(s.rows, t.rows, k) && SameTurn(t.rows, Next(w, t, e).rows, k)
  {
    hide Inv, Next, RowsOk;
    InvRows(w, s);
    InvRows(w, t);
    RowsKnown(s.rows, k, s.clock);
    RowsKnown(t.rows, k, t.clock);
  }

  /** Later ranks within a turn: not lower, and finished or kicked for good. */
  predicate RankOrder(r: int, r': int) {
    r <= r' && (r >= 5 ==> r' == r) && (r < 0 && r' > 5 ==> r' == 6)
  }

  /** Over any run within which a contributor does not join again their rank never falls: the
      position does not grow, the steps come in order, and finished or kicked is final. */
  lemma {:induction false} TurnOrder(w: World, s: State, run: seq<Event>, k: Key)
    requires Inv(w, s) && SameTurn(s.rows, After(w, s, run).rows, k)
    ensures RankOrder(Rank(s.rows, k), Rank(After(w, s, run).rows, k))
  {
    hide Inv, Next, Rank, SameTurn, RowsOk;
    TurnStarts(s.rows, After(w, s, run).rows, k);
    if run != [] {
      var run' := run[..|run| - 1];
      var e := run[|run| - 1];
      var t := After(w, s, run');
      RunFrom(w, s, run');
      RunJoins(w, s, run', k);
      NextJoins(w, t, e, k);
      TurnBetween(w, s, t, e, k, s.clock);
      TurnOrder(w, s, run', k);
      TurnStarts(s.rows, t.rows, k);
      TurnStarts(t.rows, Next(w, t, e).rows, k);
      RankNext(w, t, e, k);
      InvRows(w, t);
      RankRange(t.rows, k, t.clock);
      hide After;
      assert Next(w, t, e) == After(w, s, run);
    } else {
      InvRows(w, s);
      RankRange(s.rows, k, s.clock);
    }
  }

  lemma TurnStarts(rows: Rows, rows': Rows, k: Key)
    requires SameTurn(rows, rows', k)
    ensures k in rows && k in rows' && rows[k].joinedAt.Some?
  {
  }

  lemma RankRange(rows: Rows, k: Key, clock: nat)
    requires RowsOk(rows, clock) && k in rows && rows[k].joinedAt.Some?
    ensures Rank(rows, k) <= 6
  {
    RowsKnown(rows, k, clock);
  }

  // ---- What a contributor is told ----

  /** The place of an answer in the order in which a contributor may receive answers. */
  function AnswerRank(status: StatusResponse): int {
    match status
    case DidntJoin => 7
    case WaitingInQueue(position) => 0 - position
    case ReadyToDownloadPrevious(_) => 1
    case WaitingForContributionWithPrevious(_) => 2
    case ReadyForUpload => 3
    case ServerVerifying => 4
    case FinishedContributing => 5
    case WasKicked(_) => 6
  }

  /** A registered contributor always gets a status, and it tells their rank. */
  lemma StatusTellsRank(rows: Rows, k: Key, clock: nat)
    requires RowsOk(rows, clock) && k in rows
    ensures PlanStatus(rows, k).response.Status?
    ensures AnswerRank(PlanStatus(rows, k).response.status) == if Rank(rows, k) == 0 then 1 else Rank(rows, k)
    ensures PlanStatus(rows, k).response.status.WasKicked? ==> PlanStatus(rows, k).response.status.reason.Some?
    ensures var answer := PlanStatus(rows, k).response.status;
      answer.ReadyToDownloadPrevious? || answer.WaitingForContributionWithPrevious? ==> answer.previous == MostRecentFinished(rows)
  {
    hide IsHead, MostRecentFinished, Position;
    RowsKnown(rows, k, clock);
    if IsQueued(rows, k) {
      QueuedNotFinished(rows, k, clock);
    }
  }

  /** The answers that a contributor gets within one turn come in order, however the requests
      of all contributors, the ticks and the verification jobs are interleaved. */
  lemma AnswersInOrder(w: World, s: State, run: seq<Event>, k: Key)
    requires Inv(w, s) && SameTurn(s.rows, After(w, s, run).rows, k)
    ensures var a, b := PlanStatus(s.rows, k).response, PlanStatus(After(w, s, run).rows, k).response;
      && a.Status? && b.Status?
      && AnswerRank(a.status) <= AnswerRank(b.status)
      && (a.status.FinishedContributing? || a.status.WasKicked? ==> AnswerRank(b.status) == AnswerRank(a.status))
  {
    hide Inv, Next, After, Rank, RowsOk, PlanStatus;
    var t := After(w, s, run);
    TurnOrder(w, s, run, k);
    RunFrom(w, s, run);
    InvRows(w, s);
    InvRows(w, t);
    StatusTellsRank(s.rows, k, s.clock);
    StatusTellsRank(t.rows, k, t.clock);
  }

  // ---- Who can start a new turn ----

  /** No message of the run asks to enqueue the contributor, and none is being carried out. */
  ghost predicate NoJoin(s: State, run: seq<Event>, k: Key) {
    && (s.handler.Some? ==> Write(k, Join) !in s.handler.value.effects)
    && (forall e | e in run :: e.Begin? ==> e.msg != JoinMsg(k))
  }

  lemma PlanWithoutJoin(config: Config, rows: Rows, msg: Msg, now: nat, k: Key)
    requires msg != JoinMsg(k)
    ensures Write(k, Join) !in PlanOf(config, rows, msg, now).effects
  {
    hide MostRecentFinished, Current, IsHead;
  }

  lemma EffectWithoutJoin(s: State, effect: Effect, now: nat, k: Key)
    requires k in s.rows && effect != Write(k, Join) && Effected(s, effect, now).Some?
    ensures var s' := Effected(s, effect, now).value; k in s'.rows && s'.rows[k].joinedAt == s.rows[k].joinedAt
  {
  }

  lemma PerformWithoutJoin(s: State, gap: nat, k: Key)
    requires s.handler.Some? && s.handler.value.effects != [] && Write(k, Join) !in s.handler.value.effects && k in s.rows
    ensures var s' := Performed(s, gap);
      && (s'.handler.Some? ==> Write(k, Join) !in s'.handler.value.effects)
      && k in s'.rows && s'.rows[k].joinedAt == s.rows[k].joinedAt
  {
    hide Effected;
    var h := s.handler.value;
    var now := s.clock + 1 + gap;
    assert h.effects[0] in h.effects;
    assert forall e | e in h.effects[1..] :: e in h.effects;
    if Effected(s.(clock := now), h.effects[0], now).Some? {
      EffectWithoutJoin(s.(clock := now), h.effects[0], now, k);
    }
  }

  lemma ConcludeWithoutJoin(s: State, id: nat, gap: nat, k: Key)
    requires id in s.jobs && k in s.rows
    ensures var s' := Concluded(s, id, gap);
      s'.handler == s.handler && k in s'.rows && s'.rows[k].joinedAt == s.rows[k].joinedAt
  {
  }

  lemma NextWithoutJoin(w: World, s: State, e: Event, k: Key)
    requires Inv(w, s) && k in s.rows && NoJoin(s, [e], k)
    ensures Next(w, s, e).handler.Some? ==> Write(k, Join) !in Next(w, s, e).handler.value.effects
    ensures k in Next(w, s, e).rows && Next(w, s, e).rows[k].joinedAt == s.rows[k].joinedAt
  {
    hide Inv, PlanOf, Performed, Concluded;
    InvHandler(w, s);
    assert e in [e];
    if CanHappen(s, e) {
      match e
      case Begin(msg, gap) => PlanWithoutJoin(w.config, s.rows, msg, s.clock + 1 + gap, k);
      case Perform(gap) => PerformWithoutJoin(s, gap, k);
      case Conclude(id, gap) => ConcludeWithoutJoin(s, id, gap, k);
      case _ =>
    }
  }

  lemma {:induction false} RunWithoutJoin(w: World, s: State, run: seq<Event>, k: Key)
    requires Inv(w, s) && k in s.rows && NoJoin(s, run, k)
    ensures NoJoin(After(w, s, run), [], k)
    ensures k in After(w, s, run).rows && After(w, s, run).rows[k].joinedAt == s.rows[k].joinedAt
  {
    hide Inv, Next;
    if run != [] {
      var run' := run[..|run| - 1];
      RunWithoutJoin(w, s, run', k);
      RunFrom(w, s, run');
      NextWithoutJoin(w, After(w, s, run'), run[|run| - 1], k);
    }
  }

  /** Once an upload has been marked finished, a contributor who does not join again is only
      told that the server is verifying, that they are finished, or that they were kicked. */
  lemma AfterUpload(w: World, s: State, run: seq<Event>, k: Key)
    requires Inv(w, s) && k in s.rows && Rank(s.rows, k) == 4 && NoJoin(s, run, k)
    ensures k in After(w, s, run).rows
    ensures var answer := PlanStatus(After(w, s, run).rows, k).response;
      answer.Status? && (answer.status.ServerVerifying? || answer.status.FinishedContributing? || answer.status.WasKicked?)
  {
    hide Inv, Next, After, Rank, RowsOk, PlanStatus;
    InvRows(w, s);
    JoinedWhenRanked(s.rows, k, s.clock);
    RunWithoutJoin(w, s, run, k);
    TurnOrder(w, s, run, k);
    var t := After(w, s, run);
    RunFrom(w, s, run);
    InvRows(w, t);
    StatusTellsRank(t.rows, k, t.clock);
    RankRange(t.rows, k, t.clock);
  }

  lemma JoinedWhenRanked(rows: Rows, k: Key, clock: nat)
    requires RowsOk(rows, clock) && k in rows && Rank(rows, k) <= 6
    ensures rows[k].joinedAt.Some?
  {
    RowsKnown(rows, k, clock);
  }

  /** Finished is what a finished contributor is told forever, even on trying to join again. */
  lemma FinishedAnswer(w: World, s: State, run: seq<Event>, k: Key)
    requires Inv(w, s) && IsFinished(s.rows, k)
    ensures k in After(w, s, run).rows
    ensures PlanStatus(After(w, s, run).rows, k).response == Status(FinishedContributing)
    ensures !w.config.stopped ==> PlanJoin(w.config, After(w, s, run).rows, k) == Plan([], Refused(BadRequest))
  {
    hide Inv, Stored, After;
    FinishedForever(w, s, run);
    assert KeptFor(s, After(w, s, run), k);
  }
}
