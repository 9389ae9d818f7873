/** The client's loops over the status of a contributor, and what they may rely on. */
module Client {
  import opened Outcomes
  import opened Octets
  import opened ContributorsDb
  import opened ContributionFiles
  import opened Ceremony
  import opened CeremonyInvariant
  import opened QueueLaws
  import opened CeremonySafety
  import opened QueueRuns
  import opened ServerOutcomes
  import opened Upload

  // ---- Waiting in the queue ----

  datatype QueueOutcome =
    | ReadyToDownload(previous: Option<Key>)
    | AlreadyFinished
    | AlreadyVerifying
    | StillWaiting

  /** The answers that end the waiting. */
  predicate EndsWaiting(answer: StatusResponse) {
    answer.ReadyToDownloadPrevious? || answer.FinishedContributing? || answer.ServerVerifying?
  }

  predicate AsksToJoin(answer: StatusResponse) {
    answer.DidntJoin? || answer.WasKicked?
  }

  /** Asks for the status until an answer ends the waiting; `joins` are the requests after which
      a join was sent. Without such an answer it is still waiting. */
  method JoinAndWaitInQueue(answers: seq<StatusResponse>) returns (outcome: QueueOutcome, asked: nat, joins: set<nat>)
    ensures asked <= |answers| && forall i | 0 <= i < asked :: !EndsWaiting(answers[i])
    ensures outcome == StillWaiting <==> asked == |answers|
    ensures asked < |answers| ==>
      match answers[asked]
      case ReadyToDownloadPrevious(previous) => outcome == ReadyToDownload(previous)
      case FinishedContributing => outcome == AlreadyFinished
      case ServerVerifying => outcome == AlreadyVerifying
      case _ => false
    ensures forall i: nat :: i in joins <==> i < asked && AsksToJoin(answers[i])
  {
    asked := 0;
    joins := {};
    while asked < |answers|
      invariant asked <= |answers| && forall i | 0 <= i < asked :: !EndsWaiting(answers[i])
      invariant forall i: nat :: i in joins <==> i < asked && AsksToJoin(answers[i])
    {
      var response := answers[asked];
      match response {
        case DidntJoin => joins := joins + {asked};
        case WasKicked(_) => joins := joins + {asked};
        case WaitingInQueue(_) =>
        case ReadyToDownloadPrevious(previous) => return ReadyToDownload(previous), asked, joins;
        case FinishedContributing => return AlreadyFinished, asked, joins;
        case ServerVerifying => return AlreadyVerifying, asked, joins;
        case _ =>
      }
      asked := asked + 1;
    }
    outcome := StillWaiting;
  }

  // ---- Uploading ----

  /** Without an upload plan the client gives up; with one it uploads its contribution in slices
      and announces the hash. */
  method UploadMyContribution(answer: StatusResponse, bytes: Bytes, hashOf: Bytes -> string) returns (r: Option<(seq<Bytes>, string)>)
    ensures r.Some? <==> answer.ReadyForUpload?
    ensures r.Some? ==> |r.value.0| == PARALLEL_UPLOAD_PARTS && Flatten(r.value.0) == bytes && r.value.1 == hashOf(bytes)
  {
    if !answer.ReadyForUpload? {
      return None;
    }
    var slices := UploadParallel(PARALLEL_UPLOAD_PARTS, bytes);
    return Some((slices, hashOf(bytes)));
  }

  // ---- Waiting for the verification ----

  datatype VerificationOutcome = Succeeded | GotKicked(reason: Option<KickReason>) | Unexpected | StillVerifying

  /** Asks for the status as long as the server is verifying. */
  method WaitForServerVerification(answers: seq<StatusResponse>) returns (outcome: VerificationOutcome, asked: nat)
    ensures asked <= |answers| && forall i | 0 <= i < asked :: answers[i].ServerVerifying?
    ensures outcome.StillVerifying? <==> asked == |answers|
    ensures asked < |answers| ==>
      match answers[asked]
      case WasKicked(reason) => outcome == GotKicked(reason)
      case FinishedContributing => outcome == Succeeded
      case ServerVerifying => false
      case _ => outcome == Unexpected
  {
    asked := 0;
    while asked < |answers|
      invariant asked <= |answers| && forall i | 0 <= i < asked :: answers[i].ServerVerifying?
    {
      var response := answers[asked];
      match response {
        case WasKicked(reason) => return GotKicked(reason), asked;
        case FinishedContributing => return Succeeded, asked;
        case ServerVerifying =>
        case _ => return Unexpected, asked;
      }
      asked := asked + 1;
    }
    outcome := StillVerifying;
  }

  /** The answers that the server gives a contributor at some moments of a run. */
  ghost predicate AnswersAlong(w: World, s: State, run: seq<Event>, k: Key, moments: seq<nat>, answers: seq<StatusResponse>) {
    |moments| == |answers|
    && forall i | 0 <= i < |answers| :: moments[i] <= |run| && PlanStatus(After(w, s, run[..moments[i]]).rows, k).response == Status(answers[i])
  }

  /** What the client concludes is true of the server at the moment of the last answer: it is
      finished, being verified, or the head with the previous contribution to download. */
  method WaitForTurn(ghost w: World, ghost s: State, ghost run: seq<Event>, ghost k: Key, ghost moments: seq<nat>, answers: seq<StatusResponse>)
    returns (outcome: QueueOutcome, asked: nat)
    requires Inv(w, s) && k in s.rows && AnswersAlong(w, s, run, k, moments, answers)
    ensures asked <= |answers| == |moments| && (outcome == StillWaiting <==> asked == |answers|)
    ensures asked < |answers| ==>
      var rows := After(w, s, run[..moments[asked]]).rows;
      && k in rows
      && match outcome
         case ReadyToDownload(previous) => IsHead(rows, k) && rows[k].startedComputeAt.None? && previous == MostRecentFinished(rows)
         case AlreadyFinished => rows[k].status == Finished
         case AlreadyVerifying => IsHead(rows, k) && rows[k].finishedUploadAt.Some?
         case StillWaiting => false
  {
    hide Inv, After, PlanStatus, IsHead, MostRecentFinished, RowsOk;
    var joins;
    outcome, asked, joins := JoinAndWaitInQueue(answers);
    if asked < |answers| {
      AnswerIsTrue(w, s, run, k, moments[asked]);
    }
  }

  /** At any moment of a run the answer says how the contributor stands. */
  lemma AnswerIsTrue(w: World, s: State, run: seq<Event>, k: Key, n: nat)
    requires Inv(w, s) && k in s.rows && n <= |run|
    ensures var rows := After(w, s, run[..n]).rows;
      k in rows && PlanStatus(rows, k).response.Status? && StatusIs(rows, k, PlanStatus(rows, k).response.status)
  {
    hide Inv, After, PlanStatus, StatusIs, RowsOk;
    RunFrom(w, s, run[..n]);
    RunJoins(w, s, run[..n], k);
    var t := After(w, s, run[..n]);
    InvRows(w, t);
    StatusMeans(t.rows, k, t.clock);
  }

  lemma NoJoinEarlier(s: State, run: seq<Event>, k: Key, n: nat)
    requires NoJoin(s, run, k) && n <= |run|
    ensures NoJoin(s, run[..n], k)
  {
    assert forall e | e in run[..n] :: e in run;
  }

  /** From the moment the upload is marked finished, whatever the server does and whenever the
      client asks, it is never given an answer that it does not expect, as long as nobody asks to
      enqueue the contributor again. */
  lemma NeverUnexpected(w: World, s: State, run: seq<Event>, k: Key, moments: seq<nat>, answers: seq<StatusResponse>)
    requires Inv(w, s) && k in s.rows && Rank(s.rows, k) == 4 && NoJoin(s, run, k)
    requires AnswersAlong(w, s, run, k, moments, answers)
    ensures forall i | 0 <= i < |answers| ::
      answers[i].ServerVerifying? || answers[i].FinishedContributing? || answers[i].WasKicked?
  {
    hide Inv, After, PlanStatus, Rank, NoJoin;
    forall i | 0 <= i < |answers|
      ensures answers[i].ServerVerifying? || answers[i].FinishedContributing? || answers[i].WasKicked?
    {
      NoJoinEarlier(s, run, k, moments[i]);
      AfterUpload(w, s, run[..moments[i]], k);
    }
  }

  /** The client's own loop therefore never takes its unexpected exit, and what it reports is true
      of the server at the moment of the last answer. */
  method WaitAfterUpload(ghost w: World, ghost s: State, ghost run: seq<Event>, ghost k: Key, ghost moments: seq<nat>, answers: seq<StatusResponse>)
    returns (outcome: VerificationOutcome, asked: nat)
    requires Inv(w, s) && k in s.rows && Rank(s.rows, k) == 4 && NoJoin(s, run, k)
    requires AnswersAlong(w, s, run, k, moments, answers)
    ensures asked <= |answers| == |moments| && (outcome == StillVerifying <==> asked == |answers|)
    ensures asked < |answers| ==>
      var rows := After(w, s, run[..moments[asked]]).rows;
      && k in rows
      && match outcome
         case Succeeded => rows[k].status == Finished
         case GotKicked(reason) => rows[k].status == Status.Kicked && reason.Some? && reason == rows[k].kickedError
         case Unexpected => false
         case StillVerifying => false
  {
    hide Inv, After, PlanStatus, Rank, NoJoin, RowsOk;
    NeverUnexpected(w, s, run, k, moments, answers);
    outcome, asked := WaitForServerVerification(answers);
    if asked < |answers| {
      AnswerIsTrue(w, s, run, k, moments[asked]);
    }
  }
}
