/** How long a contributor can hold up the queue. */
module TimedProgress {
  import opened ContributorsDb
  import opened QueueLaws
  import opened Ceremony
  import opened CeremonyInvariant
  import opened CeremonySteps
  import opened CeremonyEvents
  import opened CeremonyTasks
  import opened CeremonySafety
  import opened QueueRuns

  // ---- Ticks ----

  /** A tick that is under way still has its one effect to make, and it is the one that its
      reading of the clock and the present table call for. */
  ghost predicate TickOk(w: World, s: State) {
    && s.lastTick <= s.clock
    && (s.handler.Some? && s.handler.value.msg.Tick? ==>
          && s.handler.value.begun <= s.clock
          && s.handler.value.effects == PlanTick(w.config, s.rows, s.handler.value.begun).effects
          && |s.handler.value.effects| == 1)
  }

  lemma BeginTickOk(w: World, s: State, msg: Msg, gap: nat)
    requires Inv(w, s) && TickOk(w, s) && s.handler.None?
    ensures TickOk(w, Begun(w, s, msg, gap))
  {
    hide Inv, PlanStatus, PlanJoin, PlanProgress, PlanTick, RowsOk;
    InvRows(w, s);
    TickIsOk(w.config, s.rows, s.files, s.clock + 1 + gap, s.clock);
  }

  lemma PerformTickOk(w: World, s: State, gap: nat)
    requires Inv(w, s) && TickOk(w, s) && s.handler.Some? && s.handler.value.effects != []
    ensures TickOk(w, Performed(s, gap))
  {
    hide Inv, Effected;
    PerformClock(s, gap);
    var now := s.clock + 1 + gap;
    if Effected(s.(clock := now), s.handler.value.effects[0], now).Some? {
      EffectLeavesHandler(s, s.handler.value.effects[0], now);
    }
  }

  lemma NextTickOk(w: World, s: State, e: Event)
    requires Inv(w, s) && TickOk(w, s)
    ensures TickOk(w, Next(w, s, e))
  {
    hide Inv, Begun, Performed, PlanTick, Updated, Current;
    if CanHappen(s, e) {
      InvHandler(w, s);
      match e
      case Begin(msg, gap) => BeginTickOk(w, s, msg, gap);
      case Perform(gap) => PerformTickOk(w, s, gap);
      case _ =>
    }
  }

  lemma {:induction false} RunTickOk(w: World, clock: nat, run: seq<Event>)
    ensures TickOk(w, After(w, Initial(clock), run))
  {
    hide Inv, Next, PlanTick;
    if run != [] {
      RunKeeps(w, clock, run[..|run| - 1]);
      RunTickOk(w, clock, run[..|run| - 1]);
      NextTickOk(w, After(w, Initial(clock), run[..|run| - 1]), run[|run| - 1]);
    }
  }

  // ---- The time allowed for each step ----

  function NonNegative(x: int): nat {
    if x < 0 then 0 else x
  }

  /** The timeout of a step; being marked as downloading is left to the first tick. */
  function Allowed(config: Config, step: ContributionStep): nat {
    match step
    case DownloadNotStarted => 0
    case DownloadStarted(_) => NonNegative(config.downloadTimeout)
    case ComputeStarted(_) => NonNegative(config.contributeTimeout)
    case UploadStarted(_) => NonNegative(config.uploadTimeout)
    case Verifying => 0
    case VerifyFinished => 0
  }

  /** From becoming the head to the start of a step, when ticks come at least every `d`. */
  function StartBy(config: Config, d: nat, step: ContributionStep): nat {
    match step
    case DownloadNotStarted => 0
    case DownloadStarted(_) => d
    case ComputeStarted(_) => NonNegative(config.downloadTimeout) + 2 * d
    case UploadStarted(_) => NonNegative(config.downloadTimeout) + NonNegative(config.contributeTimeout) + 3 * d
    case Verifying => TurnTime(config, d)
    case VerifyFinished => TurnTime(config, d)
  }

  /** The three timeouts and four gaps between ticks. */
  function TurnTime(config: Config, d: nat): nat {
    NonNegative(config.downloadTimeout) + NonNegative(config.contributeTimeout) + NonNegative(config.uploadTimeout) + 4 * d
  }

  /** When the step of a row started, for a contributor who became the head at `since`. */
  function StartOf(row: Row, since: nat): nat {
    match row.Step()
    case DownloadNotStarted => since
    case DownloadStarted(start) => start
    case ComputeStarted(start) => start
    case UploadStarted(start) => start
    case Verifying => if row.finishedUploadAt.Some? then row.finishedUploadAt.value else since
    case VerifyFinished => since
  }

  /** The head is on time: its step has started in time, and the last tick saw it within the
      timeout of the step. */
  ghost predicate OnTime(config: Config, d: nat, row: Row, since: nat, clock: nat, lastTick: nat) {
    && StartOf(row, since) <= since + StartBy(config, d, row.Step())
    && (row.Step() != Verifying ==>
          && lastTick <= StartOf(row, since) + Allowed(config, row.Step())
          && clock <= since + StartBy(config, d, row.Step()) + Allowed(config, row.Step()) + d)
  }

  /** From the reading of the clock by one tick to the end of the next at most `d` passes. */
  ghost predicate TicksWithin(w: World, s: State, e: Event, d: nat) {
    Next(w, s, e).clock <= s.lastTick + d
  }

  // ---- One event ----

  /** The row of the head after an event: in the same step since the same time, or in the next
      step since now. */
  ghost predicate HeadMoves(row: Row, row': Row, since: nat, now: nat) {
    || (row'.Step() == row.Step() && StartOf(row', since) == StartOf(row, since))
    || (StepIndex(row'.Step()) == StepIndex(row.Step()) + 1 && row.Step() != Verifying && StartOf(row', since) == now)
  }

  lemma HeadRowMoves(rows: Rows, j: Key, move: Move, clock: nat, now: nat, k: Key, since: nat)
    requires RowsOk(rows, clock) && Enabled(rows, j, move) && clock < now
    requires IsHead(rows, k) && IsHead(Updated(rows, j, move, now), k)
    ensures HeadMoves(rows[k], Updated(rows, j, move, now)[k], since, now)
  {
    HeadIsQueued(rows, k);
    HeadIsQueued(Updated(rows, j, move, now), k);
    RowsKnown(rows, k, clock);
    hide RowsOk, IsHead, RowOk;
  }

  lemma NextHeadMoves(w: World, s: State, e: Event, k: Key, since: nat)
    requires Inv(w, s) && IsHead(s.rows, k) && IsHead(Next(w, s, e).rows, k)
    ensures HeadMoves(s.rows[k], Next(w, s, e).rows[k], since, Next(w, s, e).clock)
  {
    hide Inv, RowsOk, Next, Updated, Enabled, IsHead, HeadMoves, AtMostOneWrite;
    NextWrites(w, s, e);
    InvRows(w, s);
    HeadIsQueued(s.rows, k);
    var s' := Next(w, s, e);
    if s'.rows == s.rows {
      SameRowMoves(s.rows[k], since, s'.clock);
    } else {
      var j, move := WriteOf(s, s');
      HeadRowMoves(s.rows, j, move, s.clock, s'.clock, k, since);
    }
  }

  lemma WriteOf(s: State, s': State) returns (k: Key, move: Move)
    requires AtMostOneWrite(s, s') && s'.rows != s.rows
    ensures OneWrite(s, s', k, move)
  {
    k, move :| OneWrite(s, s', k, move);
  }

  lemma SameRowMoves(row: Row, since: nat, now: nat)
    ensures HeadMoves(row, row, since, now)
  {
  }

  /** A tick that had nothing to do found the head within the timeout of its step. */
  lemma IdleTick(config: Config, rows: Rows, k: Key, now: nat, since: nat, clock: nat)
    requires RowsOk(rows, clock) && IsHead(rows, k) && PlanTick(config, rows, now).effects == []
    ensures rows[k].Step() != DownloadNotStarted
    ensures rows[k].Step() != Verifying ==> now <= StartOf(rows[k], since) + Allowed(config, rows[k].Step())
  {
    CurrentKnown(rows, k, clock);
    QueuedNotFinished(rows, k, clock);
  }

  /** A tick that had something to do started the download, or kicked the head. */
  lemma BusyTick(w: World, s: State, gap: nat, k: Key)
    requires Inv(w, s) && TickOk(w, s) && s.handler.Some? && s.handler.value.msg.Tick? && s.handler.value.effects != []
    requires IsHead(s.rows, k) && IsHead(Performed(s, gap).rows, k)
    ensures Performed(s, gap).rows == Updated(s.rows, k, StartDownload, s.clock + 1 + gap) && s.rows[k].Step() == DownloadNotStarted
  {
    hide Inv, RowsOk, Current, TickEffects, IsHead, Updated;
    InvRows(w, s);
    HeadIsQueued(s.rows, k);
    CurrentKnown(s.rows, k, s.clock);
    TickEffectKinds(w.config, k, s.rows[k], s.handler.value.begun);
    if s.handler.value.effects[0].KickCurrent? {
      KickedIsNoHead(s.rows, k, s.handler.value.effects[0].reason, s.clock + 1 + gap);
    }
  }

  lemma KickedIsNoHead(rows: Rows, k: Key, reason: KickReason, now: nat)
    requires k in rows
    ensures !IsHead(Updated(rows, k, Kick(reason), now), k)
  {
  }

  lemma TickEffectKinds(config: Config, k: Key, row: Row, now: nat)
    ensures var effects := TickEffects(config, k, row, now);
      effects != [] ==> effects[0].KickCurrent? || (effects[0] == Write(k, StartDownload) && row.Step() == DownloadNotStarted)
  {
  }

  lemma LastTickMoves(w: World, s: State, e: Event, k: Key, since: nat)
    requires Inv(w, s) && TickOk(w, s) && IsHead(s.rows, k) && IsHead(Next(w, s, e).rows, k)
    ensures var s' := Next(w, s, e);
      || s'.lastTick == s.lastTick
      || (s'.rows == s.rows && s.rows[k].Step() != DownloadNotStarted
          && (s.rows[k].Step() != Verifying ==> s'.lastTick <= StartOf(s.rows[k], since) + Allowed(w.config, s.rows[k].Step())))
      || (s.rows[k].Step() == DownloadNotStarted && s'.rows[k].Step().DownloadStarted?)
  {
    hide Inv, RowsOk, IsHead, Performed, Concluded, PlanOf, PlanTick, TickOk;
    InvRows(w, s);
    HeadIsQueued(s.rows, k);
    if CanHappen(s, e) {
      InvHandler(w, s);
      match e
      case Begin(msg, gap) =>
        if msg.Tick? {
          TickPlan(w.config, s.rows, s.clock + 1 + gap);
          if PlanTick(w.config, s.rows, s.clock + 1 + gap).effects == [] {
            IdleTick(w.config, s.rows, k, s.clock + 1 + gap, since, s.clock);
          }
        }
      case Perform(gap) =>
        if s.handler.value.msg.Tick? {
          BusyTick(w, s, gap, k);
        } else {
          PerformLastTick(s, gap);
        }
      case Conclude(id, gap) => ConcludeLastTick(s, id, gap);
      case _ =>
    }
  }

  lemma TickPlan(config: Config, rows: Rows, now: nat)
    ensures PlanOf(config, rows, Tick, now) == PlanTick(config, rows, now)
  {
  }

  lemma PerformLastTick(s: State, gap: nat)
    requires s.handler.Some? && s.handler.value.effects != [] && !s.handler.value.msg.Tick?
    ensures Performed(s, gap).lastTick == s.lastTick
  {
    hide Effected;
    var now := s.clock + 1 + gap;
    if Effected(s.(clock := now), s.handler.value.effects[0], now).Some? {
      EffectLeavesHandler(s, s.handler.value.effects[0], now);
    }
  }

  lemma ConcludeLastTick(s: State, id: nat, gap: nat)
    requires id in s.jobs
    ensures Concluded(s, id, gap).lastTick == s.lastTick
  {
  }

  /** An event keeps the head on time. */
  lemma NextOnTime(w: World, s: State, e: Event, k: Key, since: nat, d: nat)
    requires Inv(w, s) && TickOk(w, s) && IsHead(s.rows, k) && IsHead(Next(w, s, e).rows, k)
    requires OnTime(w.config, d, s.rows[k], since, s.clock, s.lastTick) && TicksWithin(w, s, e, d)
    ensures OnTime(w.config, d, Next(w, s, e).rows[k], since, Next(w, s, e).clock, Next(w, s, e).lastTick)
  {
    hide Inv, Next, RowsOk, IsHead, HandlerOk, PlanTick;
    NextHeadMoves(w, s, e, k, since);
    LastTickMoves(w, s, e, k, since);
    HeadIsQueued(s.rows, k);
    HeadIsQueued(Next(w, s, e).rows, k);
    InvRows(w, s);
    QueuedNotFinished(s.rows, k, s.clock);
    NextTickOk(w, s, e);
    var s' := Next(w, s, e);
    NumbersOnTime(w.config, d, s.rows[k], s'.rows[k], since, s.clock, s.lastTick, s'.clock, s'.lastTick);
  }

  lemma NumbersOnTime(config: Config, d: nat, row: Row, row': Row, since: nat, clock: nat, lastTick: nat, now: nat, lastTick': nat)
    requires OnTime(config, d, row, since, clock, lastTick) && row.Step() != VerifyFinished
    requires now <= lastTick + d && lastTick' <= now && HeadMoves(row, row', since, now)
    requires
      || lastTick' == lastTick
      || (row' == row && (row.Step() != Verifying ==> lastTick' <= StartOf(row, since) + Allowed(config, row.Step())))
      || (row.Step() == DownloadNotStarted && row'.Step().DownloadStarted?)
    ensures OnTime(config, d, row', since, now, lastTick')
  {
  }

  // ---- Runs ----

  ghost predicate TicksThroughout(w: World, s: State, run: seq<Event>, d: nat) {
    forall i | 0 <= i < |run| :: TicksWithin(w, After(w, s, run[..i]), run[i], d)
  }

  lemma TicksEarlier(w: World, s: State, run: seq<Event>, d: nat)
    requires TicksThroughout(w, s, run, d) && run != []
    ensures TicksThroughout(w, s, run[..|run| - 1], d)
    ensures TicksWithin(w, After(w, s, run[..|run| - 1]), run[|run| - 1], d)
  {
    hide TicksWithin, After;
    var run' := run[..|run| - 1];
    forall i | 0 <= i < |run'| ensures TicksWithin(w, After(w, s, run'[..i]), run'[i], d) {
      assert run'[..i] == run[..i];
    }
  }

  lemma {:induction false} HeadOnTime(w: World, s: State, run: seq<Event>, k: Key, d: nat)
    requires Inv(w, s) && TickOk(w, s) && IsHead(s.rows, k) && s.rows[k].Step() == DownloadNotStarted
    requires HeadThroughout(w, s, run, k) && TicksThroughout(w, s, run, d)
    ensures TickOk(w, After(w, s, run)) && IsHead(After(w, s, run).rows, k)
    ensures var t := After(w, s, run); OnTime(w.config, d, t.rows[k], s.clock, t.clock, t.lastTick)
  {
    hide Inv, Next, IsHead, RowsOk, HeadThroughout, TicksThroughout, TicksWithin, PlanTick;
    HeadIsQueued(s.rows, k);
    if run != [] {
      var run' := run[..|run| - 1];
      HeadEarlier(w, s, run, k);
      TicksEarlier(w, s, run, d);
      HeadOnTime(w, s, run', k, d);
      RunFrom(w, s, run');
      HeadIsQueued(After(w, s, run).rows, k);
      hide OnTime, TickOk;
      NextTickOk(w, After(w, s, run'), run[|run| - 1]);
      NextOnTime(w, After(w, s, run'), run[|run| - 1], k, s.clock, d);
    }
  }

  /** From becoming the head, a contributor has finished the upload or is no longer the head
      within the three timeouts and four gaps between ticks, whatever messages arrive. */
  lemma HeadsAreTimely(w: World, s: State, run: seq<Event>, k: Key, d: nat)
    requires Inv(w, s) && TickOk(w, s) && IsHead(s.rows, k) && s.rows[k].Step() == DownloadNotStarted
    requires HeadThroughout(w, s, run, k) && TicksThroughout(w, s, run, d)
    ensures var t := After(w, s, run);
      && k in t.rows
      && (t.rows[k].Step() != Verifying ==> t.clock <= s.clock + TurnTime(w.config, d))
      && (t.rows[k].Step() == Verifying ==>
            t.rows[k].finishedUploadAt.Some? && t.rows[k].finishedUploadAt.value <= s.clock + TurnTime(w.config, d))
  {
    hide Inv, Next, HeadThroughout, TicksThroughout, RowsOk, After, IsHead;
    HeadOnTime(w, s, run, k, d);
    var t := After(w, s, run);
    HeadIsQueued(t.rows, k);
    RunFrom(w, s, run);
    InvRows(w, t);
    QueuedNotFinished(t.rows, k, t.clock);
  }

  /** Whoever becomes the head has not started anything yet. */
  lemma NewHeadStartsFresh(w: World, s: State, e: Event, k: Key)
    requires Inv(w, s) && !IsHead(s.rows, k) && IsHead(Next(w, s, e).rows, k)
    ensures Next(w, s, e).rows[k].Step() == DownloadNotStarted
  {
    hide Inv, RowsOk, Next, IsHead, AtMostOneWrite, RowOk;
    NextWrites(w, s, e);
    InvRows(w, s);
    var s' := Next(w, s, e);
    HeadIsQueued(s'.rows, k);
    var j, move := WriteOf(s, s');
    if KeepsQueue(move) {
      QueueKept(s.rows, j, move, s'.clock);
    } else if k == j {
      RowsKnown(s.rows, k, s.clock);
      JoinedFresh(s.rows[k], s.clock, s'.clock);
    } else {
      QueuedStarted(s.rows, k, s.clock);
    }
  }

  lemma JoinedFresh(row: Row, clock: nat, now: nat)
    requires RowOk(row, clock) && row.status != Finished
    ensures Moved(row, Join, now).Step() == DownloadNotStarted
  {
  }

  // ---- Being heard of ----

  /** The last tick saw the head within the ping timeout of its last message, or the head is
      newer than that tick. */
  ghost predicate Heard(config: Config, row: Row, since: nat, lastTick: nat) {
    row.Step() != Verifying ==> lastTick <= Latest(row.updatedTimestamp + NonNegative(config.pingTimeout), since)
  }

  function Latest(a: nat, b: nat): nat {
    if a < b then b else a
  }

  lemma RowHeardLater(rows: Rows, j: Key, move: Move, clock: nat, now: nat, k: Key)
    requires RowsOk(rows, clock) && Enabled(rows, j, move) && clock < now && k in rows
    ensures Updated(rows, j, move, now)[k].updatedTimestamp >= rows[k].updatedTimestamp
  {
    RowsKnown(rows, k, clock);
  }

  lemma NextHeardLater(w: World, s: State, e: Event, k: Key)
    requires Inv(w, s) && k in s.rows
    ensures k in Next(w, s, e).rows && Next(w, s, e).rows[k].updatedTimestamp >= s.rows[k].updatedTimestamp
  {
    hide Inv, RowsOk, Next, Enabled, AtMostOneWrite;
    NextWrites(w, s, e);
    InvRows(w, s);
    var s' := Next(w, s, e);
    if s'.rows != s.rows {
      var j, move := WriteOf(s, s');
      RowHeardLater(s.rows, j, move, s.clock, s'.clock, k);
    }
  }

  /** A tick that had nothing to do found the head to have been heard of in time. */
  lemma IdleTickHeard(config: Config, rows: Rows, k: Key, now: nat, clock: nat)
    requires RowsOk(rows, clock) && IsHead(rows, k) && PlanTick(config, rows, now).effects == []
    ensures rows[k].Step() != Verifying ==> now <= rows[k].updatedTimestamp + NonNegative(config.pingTimeout)
  {
    CurrentKnown(rows, k, clock);
  }

  lemma LastTickHeard(w: World, s: State, e: Event, k: Key)
    requires Inv(w, s) && TickOk(w, s) && IsHead(s.rows, k) && IsHead(Next(w, s, e).rows, k)
    ensures var s' := Next(w, s, e);
      || s'.lastTick == s.lastTick
      || (s'.rows == s.rows
          && (s.rows[k].Step() != Verifying ==> s'.lastTick <= s.rows[k].updatedTimestamp + NonNegative(w.config.pingTimeout)))
      || s'.rows[k].updatedTimestamp == s'.clock
  {
    hide Inv, RowsOk, IsHead, Performed, Concluded, PlanOf, PlanTick, TickOk;
    InvRows(w, s);
    HeadIsQueued(s.rows, k);
    if CanHappen(s, e) {
      InvHandler(w, s);
      match e
      case Begin(msg, gap) =>
        if msg.Tick? {
          TickPlan(w.config, s.rows, s.clock + 1 + gap);
          if PlanTick(w.config, s.rows, s.clock + 1 + gap).effects == [] {
            IdleTickHeard(w.config, s.rows, k, s.clock + 1 + gap, s.clock);
          }
        }
      case Perform(gap) =>
        if s.handler.value.msg.Tick? {
          BusyTick(w, s, gap, k);
          PerformClock(s, gap);
        } else {
          PerformLastTick(s, gap);
        }
      case Conclude(id, gap) => ConcludeLastTick(s, id, gap);
      case _ =>
    }
  }

  lemma NextHeard(w: World, s: State, e: Event, k: Key, since: nat)
    requires Inv(w, s) && TickOk(w, s) && IsHead(s.rows, k) && IsHead(Next(w, s, e).rows, k)
    requires k in s.rows && Heard(w.config, s.rows[k], since, s.lastTick)
    ensures k in Next(w, s, e).rows && Heard(w.config, Next(w, s, e).rows[k], since, Next(w, s, e).lastTick)
  {
    hide Inv, Next, RowsOk, IsHead, HandlerOk, PlanTick, Updated;
    NextHeardLater(w, s, e, k);
    NextHeadMoves(w, s, e, k, since);
    LastTickHeard(w, s, e, k);
    NextTickOk(w, s, e);
  }

  lemma {:induction false} HeadHeard(w: World, s: State, run: seq<Event>, k: Key)
    requires Inv(w, s) && TickOk(w, s) && IsHead(s.rows, k) && HeadThroughout(w, s, run, k)
    ensures TickOk(w, After(w, s, run)) && k in After(w, s, run).rows
    ensures Heard(w.config, After(w, s, run).rows[k], s.clock, After(w, s, run).lastTick)
  {
    hide Inv, Next, IsHead, RowsOk, HeadThroughout, PlanTick;
    HeadIsQueued(s.rows, k);
    if run != [] {
      var run' := run[..|run| - 1];
      HeadEarlier(w, s, run, k);
      HeadHeard(w, s, run', k);
      RunFrom(w, s, run');
      hide Heard, TickOk;
      NextTickOk(w, After(w, s, run'), run[|run| - 1]);
      NextHeard(w, After(w, s, run'), run[|run| - 1], k, s.clock);
    }
  }

  /** A silent head does not stay: as long as a contributor is at the head and has not finished
      uploading, they became the head or were heard of no longer ago than the ping timeout and
      one gap between ticks. */
  lemma SilentHeadsLeave(w: World, s: State, run: seq<Event>, e: Event, k: Key, d: nat)
    requires Inv(w, s) && TickOk(w, s) && IsHead(s.rows, k) && HeadThroughout(w, s, run, k)
    requires var t := After(w, s, run); TicksWithin(w, t, e, d) && IsHead(t.rows, k) && t.rows[k].Step() != Verifying
    ensures var t := After(w, s, run);
      Next(w, t, e).clock <= Latest(t.rows[k].updatedTimestamp + NonNegative(w.config.pingTimeout), s.clock) + d
  {
    hide Inv, Next, IsHead, RowsOk, HeadThroughout, After, PlanTick;
    HeadHeard(w, s, run, k);
  }

  /** In every run: when an event makes a contributor the head and they stay so, they have
      finished the upload within the three timeouts and four gaps between ticks. */
  lemma TurnsEnd(w: World, clock: nat, before: seq<Event>, e: Event, run: seq<Event>, k: Key, d: nat)
    requires !IsHead(After(w, Initial(clock), before).rows, k)
    requires IsHead(Next(w, After(w, Initial(clock), before), e).rows, k)
    requires var s := Next(w, After(w, Initial(clock), before), e); HeadThroughout(w, s, run, k) && TicksThroughout(w, s, run, d)
    ensures var s := Next(w, After(w, Initial(clock), before), e);
      var t := After(w, s, run);
      && k in t.rows
      && (t.rows[k].Step() != Verifying ==> t.clock <= s.clock + TurnTime(w.config, d))
      && (t.rows[k].Step() == Verifying ==>
            t.rows[k].finishedUploadAt.Some? && t.rows[k].finishedUploadAt.value <= s.clock + TurnTime(w.config, d))
  {
    hide Inv, Next, After, IsHead, RowsOk, HeadThroughout, TicksThroughout, TickOk;
    var s0 := After(w, Initial(clock), before);
    RunKeeps(w, clock, before);
    RunTickOk(w, clock, before);
    NewHeadStartsFresh(w, s0, e, k);
    NextKeeps(w, s0, e);
    NextTickOk(w, s0, e);
    HeadIsQueued(Next(w, s0, e).rows, k);
    HeadsAreTimely(w, Next(w, s0, e), run, k, d);
  }

  // ---- The verification has no limit ----

  predicate OnlyTicks(run: seq<Event>) {
    forall e | e in run :: e.Begin? && e.msg.Tick?
  }

  lemma TickSparesVerifying(w: World, s: State, gap: nat, k: Key)
    requires Inv(w, s) && s.handler.None? && VerifyingHead(s.rows, k)
    ensures var now := s.clock + 1 + gap; Next(w, s, Begin(Tick, gap)) == s.(clock := now, lastTick := now)
  {
    hide RowsOk, JobsOk, HistoryOk, IsHead, Current;
    InvRows(w, s);
    CurrentKnown(s.rows, k, s.clock);
    HeadIsQueued(s.rows, k);
  }

  /** Ticks do not end a verification: after any number of them, however late, the contributor is
      still the head and being verified, and nothing but the clock has moved. */
  lemma {:induction false} VerifyingOutlastsTicks(w: World, s: State, run: seq<Event>, k: Key)
    requires Inv(w, s) && s.handler.None? && VerifyingHead(s.rows, k) && OnlyTicks(run)
    ensures var t := After(w, s, run);
      && VerifyingHead(t.rows, k) && t.clock >= s.clock + |run|
      && t == s.(clock := t.clock, lastTick := if run == [] then s.lastTick else t.clock)
  {
    hide Inv, Next, VerifyingHead;
    if run != [] {
      var run', e := run[..|run| - 1], run[|run| - 1];
      assert e in run;
      VerifyingOutlastsTicks(w, s, run', k);
      RunFrom(w, s, run');
      TickSparesVerifying(w, After(w, s, run'), e.gap, k);
    }
  }

  /** So with no bound on the job there is none on the turn: any time can be passed. */
  lemma NoLimitOnVerifying(w: World, s: State, k: Key, time: nat) returns (run: seq<Event>)
    requires Inv(w, s) && s.handler.None? && VerifyingHead(s.rows, k)
    ensures OnlyTicks(run) && VerifyingHead(After(w, s, run).rows, k) && After(w, s, run).clock >= time
  {
    hide Inv, Next, VerifyingHead, After;
    run := seq(time, _ => Begin(Tick, 0));
    VerifyingOutlastsTicks(w, s, run, k);
  }
}
