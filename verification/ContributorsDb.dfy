/** The table of contributors: rows, their updates, and the queries over them. */
module ContributorsDb {
  import opened Outcomes
  import opened Octets
  import Counting

  datatype Key = Key(bytes: Bytes)

  datatype Status = DidntJoinQueue | Queued | Kicked | Finished

  datatype KickReason =
    | PingTimeout(elapsed: int)
    | DownloadTimeout(elapsed: int)
    | ComputeTimeout(elapsed: int)
    | UploadTimeout(elapsed: int)
    | VerificationFailed

  /** What the contributor at the head of the queue is doing, and since when. */
  datatype ContributionStep =
    | DownloadNotStarted
    | DownloadStarted(start: nat)
    | ComputeStarted(start: nat)
    | UploadStarted(start: nat)
    | Verifying
    | VerifyFinished

  datatype Row = Row(
    name: string,
    email: string,
    updatedTimestamp: nat,
    status: Status,
    joinedAt: Option<nat>,
    kickedAt: Option<nat>,
    kickedError: Option<KickReason>,
    startedDownloadAt: Option<nat>,
    startedComputeAt: Option<nat>,
    startedUploadAt: Option<nat>,
    finishedUploadAt: Option<nat>,
    contributionHash: Option<string>,
    finishedVerifyAt: Option<nat>)
  {
    /** The latest step whose timestamp is set. */
    function Step(): ContributionStep {
      if finishedVerifyAt.Some? then VerifyFinished
      else if finishedUploadAt.Some? then Verifying
      else if startedUploadAt.Some? then UploadStarted(startedUploadAt.value)
      else if startedComputeAt.Some? then ComputeStarted(startedComputeAt.value)
      else if startedDownloadAt.Some? then DownloadStarted(startedDownloadAt.value)
      else DownloadNotStarted
    }
  }

  type Rows = map<Key, Row>

  // ---- Updates of one row ----

  datatype Move =
    | Register(name: string, email: string)
    | Join
    | Touch
    | StartDownload
    | StartCompute
    | StartUpload
    | FinishUpload(hash: string)
    | FinishVerify
    | Kick(reason: KickReason)

  function NewRow(name: string, email: string, now: nat): Row {
    Row(name, email, now, DidntJoinQueue, None, None, None, None, None, None, None, None, None)
  }

  /** `enqueue` clears every timestamp of an earlier turn except `finished_verify_at`. */
  function Moved(row: Row, move: Move, now: nat): Row {
    match move
    case Register(name, email) => NewRow(name, email, now)
    case Join =>
      row.(status := Queued, joinedAt := Some(now), updatedTimestamp := now, kickedAt := None, kickedError := None,
           startedDownloadAt := None, startedComputeAt := None, startedUploadAt := None, finishedUploadAt := None,
           contributionHash := None)
    case Touch => row.(updatedTimestamp := now)
    case StartDownload => row.(startedDownloadAt := Some(now), updatedTimestamp := now)
    case StartCompute => row.(startedComputeAt := Some(now), updatedTimestamp := now)
    case StartUpload => row.(startedUploadAt := Some(now), updatedTimestamp := now)
    case FinishUpload(hash) => row.(finishedUploadAt := Some(now), updatedTimestamp := now, contributionHash := Some(hash))
    case FinishVerify => row.(status := Finished, finishedVerifyAt := Some(now), updatedTimestamp := now)
    case Kick(reason) => row.(status := Kicked, kickedAt := Some(now), updatedTimestamp := now, kickedError := Some(reason))
  }

  /** The statement `INSERT` or `UPDATE .. WHERE verifying_key = ?`. A second insert of a key
      is refused, and an update of a missing row changes nothing. */
  function Updated(rows: Rows, k: Key, move: Move, now: nat): Rows {
    if move.Register? then
      if k in rows then rows else rows[k := NewRow(move.name, move.email, now)]
    else if k in rows then rows[k := Moved(rows[k], move, now)]
    else rows
  }

  // ---- Queries ----

  predicate IsQueued(rows: Rows, k: Key) {
    k in rows && rows[k].status == Queued
  }

  predicate IsFinished(rows: Rows, k: Key) {
    k in rows && rows[k].status == Finished
  }

  /** `a < b` in SQL: not true when one side is NULL. */
  predicate Before(a: Option<nat>, b: Option<nat>) {
    a.Some? && b.Some? && a.value < b.value
  }

  /** `ORDER BY`, where NULL is the least value. */
  predicate AtMost(a: Option<nat>, b: Option<nat>) {
    a.None? || (b.Some? && a.value <= b.value)
  }

  function Ahead(rows: Rows, k: Key): set<Key>
    requires k in rows
  {
    set other | other in rows && rows[other].status == Queued && Before(rows[other].joinedAt, rows[k].joinedAt)
  }

  function QueuedKeys(rows: Rows): set<Key> {
    set k | k in rows && rows[k].status == Queued
  }

  predicate NobodyBefore(rows: Rows, k: Key)
    requires k in rows
  {
    forall other | other in rows && rows[other].status == Queued :: !Before(rows[other].joinedAt, rows[k].joinedAt)
  }

  /** The computed column `pos`: zero for every row that is not queued. */
  function Position(rows: Rows, k: Key): nat
    requires k in rows
  {
    if rows[k].status == Queued then |Ahead(rows, k)| else 0
  }

  lemma PositionBelow(rows: Rows, k: Key)
    requires IsQueued(rows, k)
    ensures Position(rows, k) < |QueuedKeys(rows)|
  {
    assert Ahead(rows, k) + {k} <= QueuedKeys(rows);
    Counting.SubsetBound(Ahead(rows, k) + {k}, QueuedKeys(rows));
  }

  lemma PositionZero(rows: Rows, k: Key)
    requires IsQueued(rows, k)
    ensures Position(rows, k) == 0 <==> NobodyBefore(rows, k)
  {
    if other :| other in rows && rows[other].status == Queued && Before(rows[other].joinedAt, rows[k].joinedAt) {
      assert other in Ahead(rows, k);
    }
  }

  /** `WHERE status = 'queued' ORDER BY joined_at ASC LIMIT 1` may return `k`. */
  predicate IsHead(rows: Rows, k: Key) {
    IsQueued(rows, k) && forall other | other in rows && rows[other].status == Queued :: AtMost(rows[k].joinedAt, rows[other].joinedAt)
  }

  /** `WHERE status = 'finished' ORDER BY finished_verify_at DESC LIMIT 1` may return `k`. */
  predicate IsLatest(rows: Rows, k: Key) {
    IsFinished(rows, k)
    && forall other | other in rows && rows[other].status == Finished ::
      AtMost(rows[other].finishedVerifyAt, rows[k].finishedVerifyAt)
  }

  ghost function Current(rows: Rows): Option<Key> {
    if exists k :: IsHead(rows, k) then
      var k :| IsHead(rows, k);
      Some(k)
    else None
  }

  ghost function MostRecentFinished(rows: Rows): Option<Key> {
    if exists k :: IsLatest(rows, k) then
      var k :| IsLatest(rows, k);
      Some(k)
    else None
  }

  lemma {:induction false} HeadAmong(rows: Rows, candidates: set<Key>) returns (k: Key)
    requires candidates != {} && candidates <= rows.Keys
    ensures k in candidates && forall c | c in candidates :: AtMost(rows[k].joinedAt, rows[c].joinedAt)
    decreases |candidates|
  {
    k :| k in candidates;
    if candidates != {k} {
      var rest := candidates - {k};
      assert rest != {} by {
        var c :| c in candidates && c != k;
        assert c in rest;
      }
      var best := HeadAmong(rows, rest);
      if AtMost(rows[best].joinedAt, rows[k].joinedAt) {
        k := best;
      }
    }
  }

  /** The query for the current contributor finds one exactly when somebody is queued. */
  lemma CurrentExists(rows: Rows)
    ensures Current(rows).Some? <==> exists k :: IsQueued(rows, k)
    ensures Current(rows).Some? ==> IsHead(rows, Current(rows).value)
  {
    var queued := QueuedKeys(rows);
    if k :| IsQueued(rows, k) {
      assert k in queued;
      var head := HeadAmong(rows, queued);
      assert IsHead(rows, head);
    }
  }

  lemma {:induction false} LatestAmong(rows: Rows, candidates: set<Key>) returns (k: Key)
    requires candidates != {} && candidates <= rows.Keys
    ensures k in candidates && forall c | c in candidates :: AtMost(rows[c].finishedVerifyAt, rows[k].finishedVerifyAt)
    decreases |candidates|
  {
    k :| k in candidates;
    if candidates != {k} {
      var rest := candidates - {k};
      assert rest != {} by {
        var c :| c in candidates && c != k;
        assert c in rest;
      }
      var best := LatestAmong(rows, rest);
      if AtMost(rows[k].finishedVerifyAt, rows[best].finishedVerifyAt) {
        k := best;
      }
    }
  }

  lemma LatestExists(rows: Rows)
    ensures MostRecentFinished(rows).Some? <==> exists k :: IsFinished(rows, k)
    ensures MostRecentFinished(rows).Some? ==> IsLatest(rows, MostRecentFinished(rows).value)
  {
    var finished := set k | k in rows && rows[k].status == Finished;
    if k :| IsFinished(rows, k) {
      assert k in finished;
      var latest := LatestAmong(rows, finished);
      assert IsLatest(rows, latest);
    }
  }

  /** A result of `WHERE status = 'finished' ORDER BY finished_verify_at ASC`. */
  ghost predicate IsFinishedList(rows: Rows, keys: seq<Key>) {
    && (forall i | 0 <= i < |keys| :: IsFinished(rows, keys[i]))
    && (forall k | IsFinished(rows, k) :: k in keys)
    && (forall i, j | 0 <= i < j < |keys| :: keys[i] != keys[j])
    && (forall i, j | 0 <= i < j < |keys| :: FinishAtMost(rows, keys[i], keys[j]))
  }

  predicate FinishAtMost(rows: Rows, j: Key, k: Key) {
    j in rows && k in rows && AtMost(rows[j].finishedVerifyAt, rows[k].finishedVerifyAt)
  }

  // ---- The table as the server holds it ----

  /** The pool behind the mutex. A statement may fail; `faults` counts how many have. */
  class ContributorsDB {
    var rows: Rows
    var faults: nat

    constructor ()
      ensures rows == map[] && faults == 0
    {
      rows := map[];
      faults := 0;
    }

    /** The updates of a row: `enqueue`, `update_timestamp` and the `mark_` statements. */
    method Update(k: Key, move: Move, now: nat) returns (ok: bool)
      requires !move.Register?
      modifies this
      ensures ok ==> rows == Updated(old(rows), k, move, now) && faults == old(faults)
      ensures !ok ==> rows == old(rows) && faults == old(faults) + 1
    {
      if * {
        faults := faults + 1;
        return false;
      }
      if k in rows {
        rows := rows[k := Moved(rows[k], move, now)];
      }
      ok := true;
    }

    /** The key is the primary key: a second insert is refused. */
    method Register(k: Key, name: string, email: string, now: nat) returns (ok: bool)
      modifies this
      ensures ok ==> k !in old(rows) && rows == Updated(old(rows), k, Move.Register(name, email), now) && faults == old(faults)
      ensures !ok ==> rows == old(rows) && (k in rows || faults == old(faults) + 1)
    {
      if * {
        faults := faults + 1;
        return false;
      }
      ok := k !in rows;
      if ok {
        rows := rows[k := NewRow(name, email, now)];
      }
    }

    /** The correlated subquery scans the table and counts the queued rows that joined before. The
        count is zero exactly for a row that is not queued or has nobody queued before it, and the
        last of the queue has everybody else before it. */
    method GetWithPos(k: Key) returns (r: Option<(nat, Row)>)
      ensures r.Some? <==> k in rows
      ensures r.Some? ==> r.value.1 == rows[k] && r.value.0 == Position(rows, k)
      ensures r.Some? ==> (r.value.0 == 0 <==> !IsQueued(rows, k) || NobodyBefore(rows, k))
      ensures r.Some? && IsQueued(rows, k) ==> r.value.0 < |QueuedKeys(rows)|
    {
      if k !in rows {
        return None;
      }
      var row := rows[k];
      var pos := 0;
      if row.status == Queued {
        ghost var counted: set<Key> := {};
        var left := rows.Keys;
        while left != {}
          invariant left <= rows.Keys
          invariant counted == set other | other in Ahead(rows, k) && other !in left
          invariant pos == |counted|
        {
          var other :| other in left;
          left := left - {other};
          if rows[other].status == Queued && Before(rows[other].joinedAt, row.joinedAt) {
            counted := counted + {other};
            pos := pos + 1;
          }
        }
        assert counted == Ahead(rows, k);
        PositionBelow(rows, k);
        PositionZero(rows, k);
      }
      return Some((pos, row));
    }

    method GetMostRecentFinished() returns (r: Option<Key>)
      ensures r.None? <==> MostRecentFinished(rows).None?
      ensures r.Some? ==> IsLatest(rows, r.value)
    {
      LatestExists(rows);
      if exists k | k in rows.Keys :: IsLatest(rows, k) {
        var k :| k in rows.Keys && IsLatest(rows, k);
        r := Some(k);
      } else {
        r := None;
      }
    }

    method GetCurrent() returns (r: Option<Key>)
      ensures r.None? <==> Current(rows).None?
      ensures r.Some? ==> IsHead(rows, r.value)
    {
      CurrentExists(rows);
      if exists k | k in rows.Keys :: IsHead(rows, k) {
        var k :| k in rows.Keys && IsHead(rows, k);
        r := Some(k);
      } else {
        r := None;
      }
    }

    /** Without a fault it fails exactly when nobody is queued, and it marks a row that the query
        for the current contributor may return. */
    method ConcludeCurrent(move: Move, now: nat) returns (ok: bool, ghost who: Option<Key>)
      requires move.FinishVerify? || move.Kick?
      modifies this
      ensures ok ==> who.Some? && IsHead(old(rows), who.value) && rows == Updated(old(rows), who.value, move, now)
      ensures ok ==> faults == old(faults)
      ensures !ok ==> rows == old(rows) && (old(Current(rows)).None? || faults == old(faults) + 1)
    {
      var head := GetCurrent();
      if head.None? {
        return false, None;
      }
      ok := Update(head.value, move, now);
      who := head;
    }

    method FinishCurrent(now: nat) returns (ok: bool, ghost who: Option<Key>)
      modifies this
      ensures ok ==> who.Some? && IsHead(old(rows), who.value) && rows == Updated(old(rows), who.value, FinishVerify, now)
      ensures ok ==> faults == old(faults)
      ensures !ok ==> rows == old(rows) && (old(Current(rows)).None? || faults == old(faults) + 1)
    {
      ok, who := ConcludeCurrent(FinishVerify, now);
    }

    method KickCurrent(reason: KickReason, now: nat) returns (ok: bool, ghost who: Option<Key>)
      modifies this
      ensures ok ==> who.Some? && IsHead(old(rows), who.value) && rows == Updated(old(rows), who.value, Kick(reason), now)
      ensures ok ==> faults == old(faults)
      ensures !ok ==> rows == old(rows) && (old(Current(rows)).None? || faults == old(faults) + 1)
    {
      ok, who := ConcludeCurrent(Kick(reason), now);
    }
  }
}
