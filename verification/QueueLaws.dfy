/** What every write of the server keeps true of the table, and how it moves the queue. */
module QueueLaws {
  import opened Outcomes
  import opened Counting
  import opened ContributorsDb

  // ---- Rows ----

  ghost predicate Past(t: Option<nat>, now: nat) {
    t.Some? ==> t.value <= now
  }

  ghost predicate Follows(later: Option<nat>, earlier: Option<nat>) {
    later.Some? ==> Before(earlier, later)
  }

  /** A timestamp of a later step is set only together with those of all earlier steps, and is
      later; the status says which timestamps are set. */
  ghost predicate RowOk(row: Row, clock: nat) {
    && row.updatedTimestamp <= clock
    && Past(row.joinedAt, clock) && Past(row.finishedVerifyAt, clock)
    && Follows(row.startedDownloadAt, row.joinedAt)
    && Follows(row.startedComputeAt, row.startedDownloadAt)
    && Follows(row.startedUploadAt, row.startedComputeAt)
    && Follows(row.finishedUploadAt, row.startedUploadAt)
    && Follows(row.finishedVerifyAt, row.finishedUploadAt)
    && StepsPast(row, clock)
    && (row.finishedUploadAt.Some? <==> row.contributionHash.Some?)
    && (row.finishedVerifyAt.Some? <==> row.status == Finished)
    && (row.kickedError.Some? <==> row.status == Kicked)
    && (row.joinedAt.None? <==> row.status == DidntJoinQueue)
  }

  ghost predicate StepsPast(row: Row, clock: nat) {
    Past(row.startedDownloadAt, clock) && Past(row.startedComputeAt, clock) && Past(row.startedUploadAt, clock)
    && Past(row.finishedUploadAt, clock)
  }

  ghost predicate AllRowsOk(rows: Rows, clock: nat) {
    forall k | k in rows :: RowOk(rows[k], clock)
  }

  ghost predicate SameJoin(rows: Rows, j: Key, k: Key) {
    j in rows && k in rows && rows[j].joinedAt.Some? && rows[j].joinedAt == rows[k].joinedAt
  }

  ghost predicate SameFinish(rows: Rows, j: Key, k: Key) {
    j in rows && k in rows && rows[j].finishedVerifyAt.Some? && rows[j].finishedVerifyAt == rows[k].finishedVerifyAt
  }

  ghost predicate DistinctTimes(rows: Rows) {
    (forall j, k | SameJoin(rows, j, k) :: j == k) && (forall j, k | SameFinish(rows, j, k) :: j == k)
  }

  /** Among the queued, only the head has started. */
  ghost predicate OnlyHeadStarted(rows: Rows) {
    forall k | IsQueued(rows, k) && rows[k].startedDownloadAt.Some? :: IsHead(rows, k)
  }

  ghost predicate RowsOk(rows: Rows, clock: nat) {
    AllRowsOk(rows, clock) && DistinctTimes(rows) && OnlyHeadStarted(rows)
  }

  lemma RowsApart(rows: Rows, clock: nat)
    requires RowsOk(rows, clock)
    ensures AllRowsOk(rows, clock) && DistinctTimes(rows)
  {
  }

  // ---- Writes ----

  /** When the server makes a write. */
  ghost predicate Enabled(rows: Rows, k: Key, move: Move) {
    match move
    case Register(_, _) => true
    case Join => k in rows && (rows[k].status == DidntJoinQueue || rows[k].status == Kicked)
    case Touch => k in rows
    case StartDownload => IsHead(rows, k) && rows[k].Step() == DownloadNotStarted
    case StartCompute => IsHead(rows, k) && rows[k].Step().DownloadStarted?
    case StartUpload => IsHead(rows, k) && rows[k].Step().ComputeStarted?
    case FinishUpload(_) => IsHead(rows, k) && rows[k].Step().UploadStarted?
    case FinishVerify => IsHead(rows, k) && rows[k].Step() == Verifying
    case Kick(_) => IsHead(rows, k)
  }

  lemma MovedRowOk(row: Row, move: Move, clock: nat, now: nat)
    requires RowOk(row, clock) && clock < now
    requires match move
      case Join => row.status == DidntJoinQueue || row.status == Kicked
      case Touch | Register(_, _) => true
      case StartDownload => row.status == Queued && row.Step() == DownloadNotStarted
      case StartCompute => row.status == Queued && row.Step().DownloadStarted?
      case StartUpload => row.status == Queued && row.Step().ComputeStarted?
      case FinishUpload(_) => row.status == Queued && row.Step().UploadStarted?
      case FinishVerify => row.status == Queued && row.Step() == Verifying
      case Kick(_) => row.status == Queued
    ensures RowOk(Moved(row, move, now), now)
  {
  }

  lemma LaterStillOk(row: Row, clock: nat, now: nat)
    requires RowOk(row, clock) && clock <= now
    ensures RowOk(row, now)
  {
  }

  lemma MoveKeepsRows(rows: Rows, k: Key, move: Move, clock: nat, now: nat)
    requires AllRowsOk(rows, clock) && Enabled(rows, k, move) && clock < now
    ensures AllRowsOk(Updated(rows, k, move, now), now)
  {
    hide RowOk;
    var rows' := Updated(rows, k, move, now);
    forall j | j in rows' ensures RowOk(rows'[j], now) {
      if j in rows && j != k {
        LaterStillOk(rows[j], clock, now);
      } else if j in rows {
        if move.Register? {
          LaterStillOk(rows[j], clock, now);
        } else {
          MovedRowOk(rows[j], move, clock, now);
        }
      } else {
        NewRowOk(move.name, move.email, now);
      }
    }
  }

  lemma NewRowOk(name: string, email: string, now: nat)
    ensures RowOk(NewRow(name, email, now), now)
  {
  }

  lemma MoveKeepsDistinct(rows: Rows, k: Key, move: Move, clock: nat, now: nat)
    requires AllRowsOk(rows, clock) && DistinctTimes(rows) && Enabled(rows, k, move) && clock < now
    ensures DistinctTimes(Updated(rows, k, move, now))
  {
    hide AllRowsOk, SameJoin, SameFinish, Updated, Enabled;
    var rows' := Updated(rows, k, move, now);
    forall i, j | SameJoin(rows', i, j) ensures i == j {
      JoinsDiffer(rows, k, move, clock, now, i, j);
    }
    forall i, j | SameFinish(rows', i, j) ensures i == j {
      FinishesDiffer(rows, k, move, clock, now, i, j);
    }
  }

  lemma JoinsDiffer(rows: Rows, k: Key, move: Move, clock: nat, now: nat, i: Key, j: Key)
    requires AllRowsOk(rows, clock) && clock < now
    requires SameJoin(Updated(rows, k, move, now), i, j)
    ensures i == j || SameJoin(rows, i, j)
  {
    assert i in rows ==> RowOk(rows[i], clock);
    assert j in rows ==> RowOk(rows[j], clock);
  }

  lemma FinishesDiffer(rows: Rows, k: Key, move: Move, clock: nat, now: nat, i: Key, j: Key)
    requires AllRowsOk(rows, clock) && clock < now
    requires SameFinish(Updated(rows, k, move, now), i, j)
    ensures i == j || SameFinish(rows, i, j)
  {
    assert i in rows ==> RowOk(rows[i], clock);
    assert j in rows ==> RowOk(rows[j], clock);
  }

  // ---- The head ----

  lemma HeadUnique(rows: Rows, j: Key, k: Key, clock: nat)
    requires AllRowsOk(rows, clock) && DistinctTimes(rows) && IsHead(rows, j) && IsHead(rows, k)
    ensures j == k
  {
    assert SameJoin(rows, j, k);
  }

  lemma CurrentIs(rows: Rows, k: Key, clock: nat)
    requires AllRowsOk(rows, clock) && DistinctTimes(rows)
    ensures Current(rows) == Some(k) <==> IsHead(rows, k)
  {
    if IsHead(rows, k) {
      HeadUnique(rows, k, Current(rows).value, clock);
    }
  }

  lemma LatestIs(rows: Rows, k: Key, clock: nat)
    requires AllRowsOk(rows, clock) && DistinctTimes(rows)
    ensures MostRecentFinished(rows) == Some(k) <==> IsLatest(rows, k)
  {
    if IsLatest(rows, k) {
      var j := MostRecentFinished(rows).value;
      assert SameFinish(rows, j, k);
    }
  }

  ghost predicate KeepsQueue(move: Move) {
    !move.Join? && !move.FinishVerify? && !move.Kick?
  }

  /** The same contributors are queued, having joined at the same times. */
  ghost predicate SameQueue(rows: Rows, rows': Rows) {
    && (forall k | k in rows :: k in rows' && rows'[k].status == rows[k].status && rows'[k].joinedAt == rows[k].joinedAt)
    && (forall k | IsQueued(rows', k) :: k in rows)
  }

  lemma MoveKeepsQueue(rows: Rows, k: Key, move: Move, now: nat)
    requires KeepsQueue(move)
    ensures SameQueue(rows, Updated(rows, k, move, now))
  {
  }

  lemma SameHeads(rows: Rows, rows': Rows, k: Key)
    requires SameQueue(rows, rows')
    ensures IsHead(rows', k) <==> IsHead(rows, k)
  {
    if IsHead(rows, k) {
      assert forall other | other in rows' && rows'[other].status == Queued :: IsQueued(rows', other);
    }
  }

  lemma SamePositions(rows: Rows, rows': Rows, k: Key)
    requires SameQueue(rows, rows') && k in rows
    ensures Position(rows', k) == Position(rows, k)
  {
    assert forall other | other in rows' && rows'[other].status == Queued :: IsQueued(rows', other);
    assert Ahead(rows', k) == Ahead(rows, k);
  }

  /** A write that neither adds to the queue nor removes from it leaves everybody's place. */
  lemma QueueKept(rows: Rows, k: Key, move: Move, now: nat)
    requires KeepsQueue(move)
    ensures SameQueue(rows, Updated(rows, k, move, now))
    ensures forall j :: IsHead(Updated(rows, k, move, now), j) <==> IsHead(rows, j)
    ensures forall j | j in rows :: Position(Updated(rows, k, move, now), j) == Position(rows, j)
  {
    MoveKeepsQueue(rows, k, move, now);
    var rows' := Updated(rows, k, move, now);
    hide IsHead, Position, Updated;
    forall j ensures IsHead(rows', j) <==> IsHead(rows, j) {
      SameHeads(rows, rows', j);
    }
    forall j | j in rows ensures Position(rows', j) == Position(rows, j) {
      SamePositions(rows, rows', j);
    }
  }

  lemma JoinedBehind(rows: Rows, j: Key, k: Key, clock: nat, now: nat)
    requires AllRowsOk(rows, clock) && Enabled(rows, k, Join) && clock < now && IsQueued(rows, j)
    ensures Ahead(Updated(rows, k, Join, now), j) == Ahead(rows, j)
  {
    assert RowOk(rows[j], clock);
  }

  lemma JoinedLast(rows: Rows, k: Key, clock: nat, now: nat)
    requires AllRowsOk(rows, clock) && Enabled(rows, k, Join) && clock < now
    ensures Ahead(Updated(rows, k, Join, now), k) == QueuedKeys(rows)
  {
    var rows' := Updated(rows, k, Join, now);
    forall j | j in QueuedKeys(rows) ensures j in Ahead(rows', k) {
      assert RowOk(rows[j], clock);
    }
  }

  lemma JoinedHead(rows: Rows, k: Key, clock: nat, now: nat, head: Key)
    requires AllRowsOk(rows, clock) && Enabled(rows, k, Join) && clock < now
    requires IsHead(rows, head) || (head == k && QueuedKeys(rows) == {})
    ensures IsHead(Updated(rows, k, Join, now), head)
  {
    var rows' := Updated(rows, k, Join, now);
    forall other | other in rows' && rows'[other].status == Queued ensures AtMost(rows'[head].joinedAt, rows'[other].joinedAt) {
      if other == k {
        assert head in rows ==> RowOk(rows[head], clock);
      } else {
        assert other in QueuedKeys(rows);
      }
    }
  }

  /** Joining goes to the end: the head stays, everybody keeps their position, and the newcomer
      gets the number of those already queued. */
  lemma Joined(rows: Rows, k: Key, clock: nat, now: nat)
    requires AllRowsOk(rows, clock) && Enabled(rows, k, Join) && clock < now
    ensures var rows' := Updated(rows, k, Join, now);
      && (forall j | IsQueued(rows, j) :: IsQueued(rows', j) && Position(rows', j) == Position(rows, j))
      && IsQueued(rows', k) && Position(rows', k) == |QueuedKeys(rows)|
      && (forall j | IsHead(rows, j) :: IsHead(rows', j))
      && (QueuedKeys(rows) == {} ==> IsHead(rows', k))
  {
    hide AllRowsOk, IsHead, Ahead, QueuedKeys;
    forall j | IsQueued(rows, j) ensures Position(Updated(rows, k, Join, now), j) == Position(rows, j) {
      JoinedBehind(rows, j, k, clock, now);
    }
    JoinedLast(rows, k, clock, now);
    forall j | IsHead(rows, j) ensures IsHead(Updated(rows, k, Join, now), j) {
      JoinedHead(rows, k, clock, now, j);
    }
    if QueuedKeys(rows) == {} {
      JoinedHead(rows, k, clock, now, k);
    }
  }

  /** Only the head leaves, and everybody else moves up by exactly one. */
  lemma HeadLeft(rows: Rows, k: Key, move: Move, clock: nat, now: nat)
    requires AllRowsOk(rows, clock) && DistinctTimes(rows) && Enabled(rows, k, move) && (move.FinishVerify? || move.Kick?)
    ensures var rows' := Updated(rows, k, move, now);
      && Position(rows, k) == 0 && !IsQueued(rows', k)
      && (forall j | j != k && IsQueued(rows, j) :: IsQueued(rows', j) && Position(rows', j) == Position(rows, j) - 1)
  {
    var rows' := Updated(rows, k, move, now);
    assert Ahead(rows, k) == {};
    forall j | j != k && IsQueued(rows, j) ensures Position(rows', j) == Position(rows, j) - 1 {
      assert RowOk(rows[j], clock) && RowOk(rows[k], clock);
      assert !SameJoin(rows, j, k);
      assert k in Ahead(rows, j);
      assert Ahead(rows', j) == Ahead(rows, j) - {k};
    }
  }

  lemma MoveKeepsHeads(rows: Rows, k: Key, move: Move, clock: nat, now: nat)
    requires RowsOk(rows, clock) && Enabled(rows, k, move) && clock < now
    ensures OnlyHeadStarted(Updated(rows, k, move, now))
  {
    hide RowOk;
    var rows' := Updated(rows, k, move, now);
    forall j | IsQueued(rows', j) && rows'[j].startedDownloadAt.Some? ensures IsHead(rows', j) {
      if KeepsQueue(move) {
        QueueKept(rows, k, move, now);
        if j != k || move.Touch? || move.Register? {
          assert IsQueued(rows, j);
        }
      } else if move.Join? {
        Joined(rows, k, clock, now);
        assert j != k && IsQueued(rows, j);
      } else {
        assert j != k && IsQueued(rows, j) && IsHead(rows, j);
        HeadUnique(rows, j, k, clock);
      }
    }
  }

  lemma MoveKeepsAll(rows: Rows, k: Key, move: Move, clock: nat, now: nat)
    requires RowsOk(rows, clock) && Enabled(rows, k, move) && clock < now
    ensures RowsOk(Updated(rows, k, move, now), now)
  {
    hide AllRowsOk, DistinctTimes, OnlyHeadStarted, Updated, Enabled;
    MoveKeepsRows(rows, k, move, clock, now);
    MoveKeepsDistinct(rows, k, move, clock, now);
    MoveKeepsHeads(rows, k, move, clock, now);
  }

  // ---- Positions ----

  /** Of two queued contributors the one who joined earlier has the smaller position. */
  lemma PositionOrder(rows: Rows, j: Key, k: Key)
    requires IsQueued(rows, j) && IsQueued(rows, k) && Before(rows[j].joinedAt, rows[k].joinedAt)
    ensures Position(rows, j) < Position(rows, k)
  {
    assert Ahead(rows, j) + {j} <= Ahead(rows, k);
    SubsetBound(Ahead(rows, j) + {j}, Ahead(rows, k));
  }

  lemma PositionsDiffer(rows: Rows, j: Key, k: Key, clock: nat)
    requires AllRowsOk(rows, clock) && DistinctTimes(rows)
    requires IsQueued(rows, j) && IsQueued(rows, k) && Position(rows, j) == Position(rows, k)
    ensures j == k
  {
    assert RowOk(rows[j], clock) && RowOk(rows[k], clock);
    if j != k {
      assert !SameJoin(rows, j, k);
      if Before(rows[j].joinedAt, rows[k].joinedAt) {
        PositionOrder(rows, j, k);
      } else {
        PositionOrder(rows, k, j);
      }
    }
  }

  /** The positions of the queued are exactly 0, 1, .., one less than their number. */
  lemma PositionsAreRanks(rows: Rows, clock: nat, i: nat)
    requires AllRowsOk(rows, clock) && DistinctTimes(rows)
    ensures i < |QueuedKeys(rows)| <==> exists k :: IsQueued(rows, k) && Position(rows, k) == i
  {
    hide RowOk, AllRowsOk, DistinctTimes;
    var queued := QueuedKeys(rows);
    if k :| IsQueued(rows, k) && Position(rows, k) == i {
      PositionBelow(rows, k);
    }
    if i < |queued| && forall k | IsQueued(rows, k) :: Position(rows, k) != i {
      var g := k => if k in rows then Position(rows, k) else 0;
      forall k | k in queued ensures g(k) in Below(|queued|) - {i} {
        PositionBelow(rows, k);
      }
      forall j, k | j in queued && k in queued && g(j) == g(k) ensures j == k {
        PositionsDiffer(rows, j, k, clock);
      }
      InjectionBound(queued, Below(|queued|) - {i}, g);
      assert false;
    }
  }

  /** Position zero among the queued is the row that the query for the current contributor returns. */
  lemma HeadIsPositionZero(rows: Rows, k: Key, clock: nat)
    requires AllRowsOk(rows, clock) && DistinctTimes(rows)
    ensures Current(rows) == Some(k) <==> IsQueued(rows, k) && Position(rows, k) == 0
  {
    CurrentIs(rows, k, clock);
    if IsHead(rows, k) {
      assert Ahead(rows, k) == {};
    }
    if IsQueued(rows, k) && Position(rows, k) == 0 {
      forall other | other in rows && rows[other].status == Queued ensures AtMost(rows[k].joinedAt, rows[other].joinedAt) {
        assert RowOk(rows[k], clock) && RowOk(rows[other], clock);
        assert other !in Ahead(rows, k);
      }
    }
  }
}
