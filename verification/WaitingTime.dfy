/** How long a contributor waits, when no verification takes longer than a given time. */
module WaitingTime {
  import opened ContributorsDb
  import opened QueueLaws
  import opened Ceremony
  import opened CeremonyInvariant
  import opened CeremonySteps
  import opened CeremonyTasks
  import opened CeremonySafety
  import opened QueueRuns
  import opened TimedProgress

  /** Up to and including this event, no verification goes on for longer than `v` after the upload
      was marked finished. */
  ghost predicate VerifiesWithin(w: World, s: State, e: Event, v: nat) {
    forall j | VerifyingHead(s.rows, j) && s.rows[j].finishedUploadAt.Some? ::
      Next(w, s, e).clock <= s.rows[j].finishedUploadAt.value + v
  }

  /** Ticks come at gaps of at most `d` and verifications end within `v`. */
  ghost predicate Steadily(w: World, s: State, run: seq<Event>, d: nat, v: nat) {
    forall i | 0 <= i < |run| :: SteadyEvent(w, After(w, s, run[..i]), run[i], d, v)
  }

  ghost predicate SteadyEvent(w: World, s: State, e: Event, d: nat, v: nat) {
    TicksWithin(w, s, e, d) && VerifiesWithin(w, s, e, v)
  }

  lemma SteadilyEarlier(w: World, s: State, run: seq<Event>, d: nat, v: nat)
    requires Steadily(w, s, run, d, v) && run != []
    ensures Steadily(w, s, run[..|run| - 1], d, v)
    ensures SteadyEvent(w, After(w, s, run[..|run| - 1]), run[|run| - 1], d, v)
  {
    hide SteadyEvent, After;
    var run' := run[..|run| - 1];
    forall i | 0 <= i < |run'| ensures SteadyEvent(w, After(w, s, run'[..i]), run'[i], d, v) {
      assert run'[..i] == run[..i];
    }
  }

  /** A whole turn at the head: up to the end of the upload, and the verification. */
  function WholeTurn(config: Config, d: nat, v: nat): nat {
    TurnTime(config, d) + v
  }

  // ---- The present turn ----

  /** The head became so at `since` and has been on time. */
  ghost predicate Scheduled(config: Config, s: State, since: nat, d: nat, v: nat) {
    since <= s.clock && forall j | IsHead(s.rows, j) :: HeadScheduled(config, s, j, since, d, v)
  }

  ghost predicate HeadScheduled(config: Config, s: State, j: Key, since: nat, d: nat, v: nat)
    requires IsHead(s.rows, j)
  {
    HeadIsQueued(s.rows, j);
    && OnTime(config, d, s.rows[j], since, s.clock, s.lastTick)
    && (s.rows[j].Step() == Verifying ==> s.clock <= StartOf(s.rows[j], since) + v)
  }

  /** A turn lasts at most as long as its parts. */
  lemma ScheduledWithin(w: World, s: State, since: nat, j: Key, d: nat, v: nat)
    requires Inv(w, s) && IsHead(s.rows, j) && Scheduled(w.config, s, since, d, v)
    ensures s.clock <= since + WholeTurn(w.config, d, v)
  {
    hide Inv, RowsOk, IsHead;
    assert HeadScheduled(w.config, s, j, since, d, v);
    InvRows(w, s);
    HeadIsQueued(s.rows, j);
    QueuedNotFinished(s.rows, j, s.clock);
  }

  /** An event during or at the end of a turn comes within that time. */
  lemma EventWithin(w: World, s: State, e: Event, since: nat, j: Key, d: nat, v: nat)
    requires Inv(w, s) && IsHead(s.rows, j) && Scheduled(w.config, s, since, d, v) && SteadyEvent(w, s, e, d, v)
    ensures Next(w, s, e).clock <= since + WholeTurn(w.config, d, v)
  {
    hide Inv, RowsOk, IsHead, Next;
    assert HeadScheduled(w.config, s, j, since, d, v);
    InvRows(w, s);
    HeadIsQueued(s.rows, j);
    QueuedNotFinished(s.rows, j, s.clock);
    RowsKnown(s.rows, j, s.clock);
  }

  lemma HeadStays(w: World, s: State, e: Event, since: nat, j: Key, d: nat, v: nat)
    requires Inv(w, s) && TickOk(w, s) && Scheduled(w.config, s, since, d, v) && SteadyEvent(w, s, e, d, v)
    requires IsHead(s.rows, j) && IsHead(Next(w, s, e).rows, j)
    ensures HeadScheduled(w.config, Next(w, s, e), j, since, d, v)
  {
    hide Inv, RowsOk, IsHead, Next, OnTime, TickOk, HeadMoves;
    assert HeadScheduled(w.config, s, j, since, d, v);
    HeadIsQueued(s.rows, j);
    HeadIsQueued(Next(w, s, e).rows, j);
    NextOnTime(w, s, e, j, since, d);
    NextHeadMoves(w, s, e, j, since);
    InvRows(w, s);
    VerifyingSince(w, s, e, since, j, v);
  }

  lemma VerifyingSince(w: World, s: State, e: Event, since: nat, j: Key, v: nat)
    requires Inv(w, s) && IsHead(s.rows, j) && IsHead(Next(w, s, e).rows, j) && j in s.rows && j in Next(w, s, e).rows
    requires HeadMoves(s.rows[j], Next(w, s, e).rows[j], since, Next(w, s, e).clock) && VerifiesWithin(w, s, e, v)
    ensures var s' := Next(w, s, e);
      s'.rows[j].Step() == Verifying ==> s'.clock <= StartOf(s'.rows[j], since) + v
  {
    hide Inv, RowsOk, IsHead, Next;
    InvRows(w, s);
    RowsKnown(s.rows, j, s.clock);
  }

  lemma NewHeadScheduled(w: World, s: State, e: Event, j: Key, d: nat, v: nat)
    requires Inv(w, s) && TickOk(w, s) && !IsHead(s.rows, j) && IsHead(Next(w, s, e).rows, j)
    ensures HeadScheduled(w.config, Next(w, s, e), j, Next(w, s, e).clock, d, v)
  {
    hide Inv, RowsOk, IsHead, Next, PlanTick, HandlerOk;
    HeadIsQueued(Next(w, s, e).rows, j);
    NewHeadStartsFresh(w, s, e, j);
    NextTickOk(w, s, e);
  }

  ghost predicate KeptHead(s: State, s': State) {
    exists j :: IsHead(s.rows, j) && IsHead(s'.rows, j)
  }

  /** When the head stays so does the start of the turn; otherwise a new turn starts now, within
      the time of the old one. */
  ghost function TurnSince(s: State, s': State, since: nat): nat {
    if KeptHead(s, s') then since else s'.clock
  }

  lemma NextScheduled(w: World, s: State, e: Event, since: nat, d: nat, v: nat)
    requires Inv(w, s) && TickOk(w, s) && Scheduled(w.config, s, since, d, v) && SteadyEvent(w, s, e, d, v)
    ensures Scheduled(w.config, Next(w, s, e), TurnSince(s, Next(w, s, e), since), d, v)
  {
    hide Inv, IsHead, Next, HeadScheduled, SteadyEvent, TickOk, RowsOk;
    var s' := Next(w, s, e);
    NextWrites(w, s, e);
    NextKeeps(w, s, e);
    InvRows(w, s');
    forall j | IsHead(s'.rows, j) ensures HeadScheduled(w.config, s', j, TurnSince(s, s', since), d, v) {
      if i :| IsHead(s.rows, i) && IsHead(s'.rows, i) {
        HeadUnique(s'.rows, i, j, s'.clock) by {
          RowsApart(s'.rows, s'.clock);
        }
        HeadStays(w, s, e, since, j, d, v);
      } else {
        NewHeadScheduled(w, s, e, j, d, v);
      }
    }
  }

  lemma {:induction false} RunScheduled(w: World, clock: nat, run: seq<Event>, d: nat, v: nat) returns (since: nat)
    requires Steadily(w, Initial(clock), run, d, v)
    ensures Scheduled(w.config, After(w, Initial(clock), run), since, d, v)
  {
    hide Inv, Next, Steadily, SteadyEvent, TickOk, HeadScheduled, TurnSince;
    if run == [] {
      since := clock;
    } else {
      var run' := run[..|run| - 1];
      var t := After(w, Initial(clock), run');
      SteadilyEarlier(w, Initial(clock), run, d, v);
      var before := RunScheduled(w, clock, run', d, v);
      RunKeeps(w, clock, run');
      RunTickOk(w, clock, run');
      NextScheduled(w, t, run[|run| - 1], before, d, v);
      since := TurnSince(t, Next(w, t, run[|run| - 1]), before);
    }
  }

  // ---- Waiting ----

  /** As long as the position stays the head stays; a head that leaves makes it one less. */
  lemma WaitingMoves(rows: Rows, j: Key, move: Move, clock: nat, now: nat, k: Key)
    requires RowsOk(rows, clock) && Enabled(rows, j, move) && clock < now
    requires IsQueued(rows, k) && IsQueued(Updated(rows, j, move, now), k)
    requires k == j ==> !move.Join?
    ensures var rows' := Updated(rows, j, move, now);
      || (Position(rows', k) == Position(rows, k) && forall i | IsHead(rows, i) :: IsHead(rows', i))
      || Position(rows', k) == Position(rows, k) - 1
  {
    hide RowsOk, IsHead, Position, Updated, RowOk;
    RowsApart(rows, clock);
    if KeepsQueue(move) {
      QueueKept(rows, j, move, now);
    } else if move.Join? {
      Joined(rows, j, clock, now);
    } else {
      HeadLeft(rows, j, move, clock, now);
    }
  }

  lemma HeadExists(rows: Rows, k: Key)
    requires IsQueued(rows, k)
    ensures exists j :: IsHead(rows, j)
  {
    CurrentExists(rows);
  }

  /** The time by which a waiting contributor is the head. */
  function Due(config: Config, rows: Rows, k: Key, since: nat, d: nat, v: nat): nat
    requires k in rows
  {
    since + Position(rows, k) * WholeTurn(config, d, v)
  }

  lemma NextDue(w: World, s: State, e: Event, k: Key, since: nat, d: nat, v: nat)
    requires Inv(w, s) && Scheduled(w.config, s, since, d, v) && SteadyEvent(w, s, e, d, v)
    requires IsQueued(s.rows, k) && IsQueued(Next(w, s, e).rows, k)
    ensures var s' := Next(w, s, e);
      Due(w.config, s'.rows, k, TurnSince(s, s', since), d, v) <= Due(w.config, s.rows, k, since, d, v)
  {
    hide Inv, IsHead, Next, Scheduled, SteadyEvent, RowsOk, Position, WholeTurn, Updated, AtMostOneWrite, Enabled;
    var s' := Next(w, s, e);
    var b := WholeTurn(w.config, d, v);
    HeadExists(s.rows, k);
    var head :| IsHead(s.rows, head);
    EventWithin(w, s, e, since, head, d, v);
    InvRows(w, s);
    NextWrites(w, s, e);
    if s'.rows != s.rows {
      var j, move := WriteOf(s, s');
      QueuedNoJoin(s.rows, j, move, s.clock, k);
      WaitingMoves(s.rows, j, move, s.clock, s'.clock, k);
      if Position(s'.rows, k) == Position(s.rows, k) - 1 {
        assert Position(s.rows, k) * b == Position(s'.rows, k) * b + b;
      }
    }
  }

  lemma QueuedNoJoin(rows: Rows, j: Key, move: Move, clock: nat, k: Key)
    requires RowsOk(rows, clock) && Enabled(rows, j, move) && IsQueued(rows, k)
    ensures k == j ==> !move.Join?
  {
  }

  /** Queued at the end of a run within one turn is queued all along. */
  lemma QueuedBefore(w: World, s: State, e: Event, k: Key)
    requires Inv(w, s) && SameTurn(s.rows, Next(w, s, e).rows, k) && IsQueued(Next(w, s, e).rows, k)
    ensures IsQueued(s.rows, k)
  {
    hide Inv, Next, RowsOk, Position;
    RankNext(w, s, e, k);
    InvRows(w, s);
    NextKeeps(w, s, e);
    InvRows(w, Next(w, s, e));
    QueuedNotFinished(Next(w, s, e).rows, k, Next(w, s, e).clock);
    RowsKnown(s.rows, k, s.clock);
  }

  lemma {:induction false} StillDue(w: World, s: State, run: seq<Event>, k: Key, since: nat, d: nat, v: nat) returns (since': nat)
    requires Inv(w, s) && TickOk(w, s) && Scheduled(w.config, s, since, d, v) && Steadily(w, s, run, d, v)
    requires var t := After(w, s, run); SameTurn(s.rows, t.rows, k) && IsQueued(t.rows, k)
    ensures var t := After(w, s, run);
      && IsQueued(s.rows, k) && Inv(w, t) && TickOk(w, t) && Scheduled(w.config, t, since', d, v)
      && Due(w.config, t.rows, k, since', d, v) <= Due(w.config, s.rows, k, since, d, v)
  {
    hide Inv, Next, Steadily, SteadyEvent, TickOk, Scheduled, TurnSince, RowsOk, SameTurn, Due;
    since' := since;
    if run != [] {
      var run', e := run[..|run| - 1], run[|run| - 1];
      var t := After(w, s, run');
      TurnStarts(s.rows, After(w, s, run).rows, k);
      SteadilyEarlier(w, s, run, d, v);
      RunFrom(w, s, run');
      RunJoins(w, s, run', k);
      NextJoins(w, t, e, k);
      TurnBetween(w, s, t, e, k, s.clock);
      QueuedBefore(w, t, e, k);
      var before := StillDue(w, s, run', k, since, d, v);
      NextScheduled(w, t, e, before, d, v);
      NextDue(w, t, e, k, before, d, v);
      NextKeeps(w, t, e);
      NextTickOk(w, t, e);
      since' := TurnSince(t, Next(w, t, e), before);
    }
  }

  /** With ticks at gaps of at most `d` and verifications of at most `v`, a contributor who moves
      from one position to another has waited no longer than one whole turn for every place gained
      and one for the turn that was going on. */
  lemma WaitsAreBounded(w: World, clock: nat, before: seq<Event>, run: seq<Event>, k: Key, d: nat, v: nat)
    requires var s := After(w, Initial(clock), before);
      && Steadily(w, Initial(clock), before, d, v) && Steadily(w, s, run, d, v)
      && SameTurn(s.rows, After(w, s, run).rows, k) && IsQueued(After(w, s, run).rows, k)
    ensures var s := After(w, Initial(clock), before);
      var t := After(w, s, run);
      && IsQueued(s.rows, k)
      && t.clock + Position(t.rows, k) * WholeTurn(w.config, d, v)
         <= s.clock + (Position(s.rows, k) + 1) * WholeTurn(w.config, d, v)
  {
    hide Inv, Next, After, Steadily, TickOk, HeadScheduled, SameTurn, IsHead, Position, WholeTurn;
    var s := After(w, Initial(clock), before);
    var t := After(w, s, run);
    var b := WholeTurn(w.config, d, v);
    RunKeeps(w, clock, before);
    RunTickOk(w, clock, before);
    var since := RunScheduled(w, clock, before, d, v);
    var since' := StillDue(w, s, run, k, since, d, v);
    HeadExists(t.rows, k);
    var head :| IsHead(t.rows, head);
    ScheduledWithin(w, t, since', head, d, v);
    assert (Position(s.rows, k) + 1) * b == Position(s.rows, k) * b + b;
  }

  /** So whoever is at position `n` has been finished or kicked when `n + 1` whole turns have passed. */
  lemma WaitsEnd(w: World, clock: nat, before: seq<Event>, run: seq<Event>, k: Key, d: nat, v: nat)
    requires var s := After(w, Initial(clock), before);
      var t := After(w, s, run);
      && Steadily(w, Initial(clock), before, d, v) && Steadily(w, s, run, d, v)
      && IsQueued(s.rows, k) && SameTurn(s.rows, t.rows, k)
      && t.clock > s.clock + (Position(s.rows, k) + 1) * WholeTurn(w.config, d, v)
    ensures var t := After(w, After(w, Initial(clock), before), run);
      t.rows[k].status == Finished || t.rows[k].status == Status.Kicked
  {
    hide Inv, Next, After, Steadily, IsHead, Position, WholeTurn, RowsOk;
    var s := After(w, Initial(clock), before);
    var t := After(w, s, run);
    RunKeeps(w, clock, before);
    RunFrom(w, s, run);
    InvRows(w, t);
    RowsKnown(t.rows, k, t.clock);
    if IsQueued(t.rows, k) {
      WaitsAreBounded(w, clock, before, run, k, d, v);
      NotNegative(Position(t.rows, k), WholeTurn(w.config, d, v));
    }
  }

  lemma NotNegative(m: nat, n: nat)
    ensures m * n >= 0
  {
  }
}
