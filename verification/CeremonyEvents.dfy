/** Every event keeps the invariant, so it holds in every reachable state. */
module CeremonyEvents {
  import opened Outcomes
  import opened ContributorsDb
  import opened ContributionFiles
  import opened QueueLaws
  import opened Ceremony
  import opened CeremonyInvariant
  import opened CeremonySteps

  lemma RowsLater(rows: Rows, clock: nat, now: nat)
    requires RowsOk(rows, clock) && clock <= now
    ensures RowsOk(rows, now)
  {
    forall k | k in rows ensures RowOk(rows[k], now) {
      LaterStillOk(rows[k], clock, now);
    }
  }

  lemma BeginKeeps(w: World, s: State, msg: Msg, gap: nat)
    requires Inv(w, s) && s.handler.None?
    ensures Inv(w, Begun(w, s, msg, gap))
  {
    hide RowsOk, JobsOk, AllJobData, HistoryOk, VerifyingStored, PlanOf, EffectsOk, OneDecision, ComposedFirst;
    var now := s.clock + 1 + gap;
    RowsLater(s.rows, s.clock, now);
    PlanHolds(w.config, s.rows, s.files, msg, now, s.clock);
  }

  // ---- The effects of a handler ----

  /** Everything but the effects that are still to come. */
  ghost predicate Base(w: World, s: State) {
    RowsOk(s.rows, s.clock) && Core(w, s)
  }

  lemma WriteKeeps(w: World, s: State, k: Key, move: Move, now: nat)
    requires Base(w, s) && s.clock < now && HarmlessWrite(s.rows, k, move)
    ensures Base(w, s.(rows := Updated(s.rows, k, move, now), clock := now))
  {
    hide Core, RowsOk, Steady, FilesKept, Updated;
    MoveKeepsAll(s.rows, k, move, s.clock, now);
    HarmlessSteady(s.rows, k, move, s.clock, now);
    SameFiles(s.rows, s.files);
    CoreKept(w, s, s.(rows := Updated(s.rows, k, move, now), clock := now));
  }

  lemma SameFiles(rows: Rows, files: Files)
    ensures FilesKept(rows, files, files)
  {
  }

  lemma FilesChangeKeeps(w: World, s: State, files': Files, now: nat)
    requires Base(w, s) && s.clock <= now && FilesKept(s.rows, s.files, files')
    ensures Base(w, s.(files := files', clock := now))
  {
    hide Core, RowsOk, Steady, FilesKept;
    RowsLater(s.rows, s.clock, now);
    SteadySelf(s.rows);
    CoreKept(w, s, s.(files := files', clock := now));
  }

  lemma NoOtherTask(rows: Rows, jobs: map<nat, Job>, nextJob: nat, k: Key, clock: nat)
    requires RowsOk(rows, clock) && JobsOk(rows, jobs, nextJob) && IsHead(rows, k) && !VerifyingHead(rows, k)
    ensures jobs == map[] && forall j :: !VerifyingHead(rows, j)
  {
    forall j ensures !VerifyingHead(rows, j) {
      if IsHead(rows, j) {
        HeadUnique(rows, j, k, clock);
      }
    }
    if id :| id in jobs {
      TaskOfHead(rows, jobs, nextJob, id);
    }
  }

  lemma TaskOfHead(rows: Rows, jobs: map<nat, Job>, nextJob: nat, id: nat)
    requires JobsOk(rows, jobs, nextJob) && id in jobs
    ensures VerifyingHead(rows, jobs[id].key)
  {
    assert JobOk(rows, jobs[id]);
  }

  /** Marking the upload finished makes the head the one being verified, and starts its job. */
  lemma FinishUploadTurns(rows: Rows, k: Key, hash: string, clock: nat, now: nat)
    requires RowsOk(rows, clock) && UploadingHead(rows, k) && clock < now
    ensures var rows' := Updated(rows, k, FinishUpload(hash), now);
      && (forall j :: VerifyingHead(rows', j) <==> j == k)
      && rows'[k].contributionHash == Some(hash)
      && (forall j :: IsFinished(rows', j) <==> IsFinished(rows, j))
      && (forall j | IsFinished(rows, j) :: rows'[j] == rows[j])
  {
    var rows' := Updated(rows, k, FinishUpload(hash), now);
    QueueKept(rows, k, FinishUpload(hash), now);
    assert RowOk(rows[k], clock);
    forall j ensures VerifyingHead(rows', j) <==> j == k {
      if IsHead(rows, j) {
        HeadUnique(rows, j, k, clock);
      }
    }
  }

  lemma HistoryCarried(w: World, rows: Rows, rows': Rows, files: Files, history: seq<Verified>)
    requires HistoryOk(w, rows, files, history)
    requires forall j :: IsFinished(rows', j) <==> IsFinished(rows, j)
    requires forall j | IsFinished(rows, j) :: j in rows' && rows'[j] == rows[j]
    ensures HistoryOk(w, rows', files, history)
  {
    hide Stored;
    forall i | 0 <= i < |history| ensures EntryOk(w, rows', files, history, i) {
      assert EntryOk(w, rows, files, history, i);
    }
    forall i, j | 0 <= i < j < |history| ensures FinishedBefore(rows', history[i].key, history[j].key) {
      assert EntryOk(w, rows, files, history, i) && EntryOk(w, rows, files, history, j);
    }
    forall k | IsFinished(rows', k) ensures Listed(history, k) {
      assert IsFinished(rows, k);
    }
  }

  lemma FinishAndVerifyKeeps(w: World, s: State, k: Key, hash: string, now: nat)
    requires Base(w, s) && s.clock < now && UploadingHead(s.rows, k) && Stored(s.files, k).Some?
    ensures Base(w, Effected(s.(clock := now), FinishAndVerify(k, hash), now).value)
  {
    hide RowsOk, HistoryOk, Updated, IsHead, Stored;
    var s' := Effected(s.(clock := now), FinishAndVerify(k, hash), now).value;
    MoveKeepsAll(s.rows, k, FinishUpload(hash), s.clock, now);
    NoOtherTask(s.rows, s.jobs, s.nextJob, k, s.clock);
    FinishUploadTurns(s.rows, k, hash, s.clock, now);
    HistoryCarried(w, s.rows, s'.rows, s.files, s.history);
    assert s'.jobs == map[s.nextJob := Job(k, hash, Spawned)];
    assert JobOk(s'.rows, s'.jobs[s.nextJob]);
    assert JobsOk(s'.rows, s'.jobs, s'.nextJob);
  }

  lemma KickCurrentKeeps(w: World, s: State, reason: KickReason, now: nat)
    requires Base(w, s) && s.clock < now && EffectOk(s.rows, KickCurrent(reason))
    ensures Effected(s.(clock := now), KickCurrent(reason), now).Some?
    ensures Base(w, Effected(s.(clock := now), KickCurrent(reason), now).value)
  {
    hide Core, Updated, IsHead, RowOk;
    var k :| IsHead(s.rows, k) && !VerifyingHead(s.rows, k);
    CurrentIs(s.rows, k, s.clock);
    WriteKeeps(w, s, k, Kick(reason), now);
  }

  lemma OthersStored(files: Files, o: Object, j: Key)
    requires o.Whole? ==> j != o.key
    ensures Stored(files - {o}, j) == Stored(files, j)
  {
  }

  lemma DeletionKeeps(w: World, s: State, o: Object, now: nat)
    requires Base(w, s) && s.clock < now && UploadingHead(s.rows, o.key)
    ensures Base(w, s.(files := s.files - {o}, clock := now))
  {
    hide Core, RowsOk, UploadingHead, Stored, FilesKept;
    forall j | j != o.key ensures Stored(s.files - {o}, j) == Stored(s.files, j) {
      OthersStored(s.files, o, j);
    }
    UploadingFilesKept(s.rows, o.key, s.files, s.files - {o}, s.clock);
    FilesChangeKeeps(w, s, s.files - {o}, now);
  }

  lemma ComposeKeeps(w: World, s: State, k: Key, now: nat)
    requires Base(w, s) && s.clock < now && UploadingHead(s.rows, k) && AllParts(s.files, k)
    ensures Base(w, s.(files := AfterCompose(s.files, k), clock := now))
    ensures Stored(AfterCompose(s.files, k), k) == Some(Composed(s.files, k))
  {
    hide Core, RowsOk, UploadingHead, FilesKept;
    UploadingFilesKept(s.rows, k, s.files, AfterCompose(s.files, k), s.clock);
    FilesChangeKeeps(w, s, AfterCompose(s.files, k), now);
  }

  lemma EffectKeeps(w: World, s: State, effect: Effect, now: nat)
    requires Base(w, s) && s.clock < now && EffectOk(s.rows, effect)
    requires effect.FinishAndVerify? ==> Stored(s.files, effect.key).Some?
    ensures var s' := Effected(s.(clock := now), effect, now);
      s'.Some? ==> Base(w, s'.value) && s'.value.clock == now
    ensures var s' := Effected(s.(clock := now), effect, now);
      s'.Some? && Gentle(effect) ==>
        s'.value.rows == s.rows || (effect.Write? && s'.value.rows == Updated(s.rows, effect.key, Touch, now))
  {
    hide Core, RowsOk, UploadingHead, Stored, AfterCompose, Updated, Enabled;
    match effect
    case Write(k, move) => WriteKeeps(w, s, k, move, now);
    case KickCurrent(reason) => KickCurrentKeeps(w, s, reason, now);
    case Drop(o) => DeletionKeeps(w, s, o, now);
    case Delete(o) => DeletionKeeps(w, s, o, now);
    case Require(_) => RowsLater(s.rows, s.clock, now); ClockOnly(w, s, now);
    case Compose(k) =>
      if AllParts(s.files, k) {
        ComposeKeeps(w, s, k, now);
      }
    case FinishAndVerify(k, hash) => FinishAndVerifyKeeps(w, s, k, hash, now);
  }

  lemma ClockOnly(w: World, s: State, now: nat)
    requires Core(w, s)
    ensures Core(w, s.(clock := now))
  {
  }

  lemma HandlerOnly(w: World, s: State, handler: Option<Handler>, lastTick: nat)
    requires Base(w, s)
    requires handler.Some? ==> HandlerOk(s.rows, s.files, handler.value.effects)
    ensures Inv(w, s.(handler := handler, lastTick := lastTick))
  {
  }

  lemma DeletesAreParts(rows: Rows, e: Effect)
    requires EffectOk(rows, e)
    ensures e.Delete? ==> e.target.Part?
  {
  }

  /** The composed file is still there when the upload is marked finished. */
  lemma ComposedStays(s: State, effects: seq<Effect>, now: nat)
    requires effects != [] && EffectsOk(s.rows, effects) && OneDecision(effects) && ComposedFirst(s.files, effects)
    requires Effected(s.(clock := now), effects[0], now).Some?
    ensures ComposedFirst(Effected(s.(clock := now), effects[0], now).value.files, effects[1..])
  {
    hide EffectOk;
    var rest := effects[1..];
    if rest != [] && rest[|rest| - 1].FinishAndVerify? {
      assert rest[|rest| - 1] == effects[|effects| - 1];
      RestOneDecision(effects);
      assert rest[|rest| - 1] in rest;
      var k := rest[|rest| - 1].key;
      assert Gentle(effects[0]) && !effects[0].Drop?;
      assert effects[0] in effects;
      assert EffectOk(s.rows, effects[0]);
      DeletesAreParts(s.rows, effects[0]);
    }
  }

  lemma PerformKeeps(w: World, s: State, gap: nat)
    requires Inv(w, s) && s.handler.Some?
    ensures Inv(w, Performed(s, gap))
  {
    hide Core, RowsOk, Stored, EffectOk, EffectsOk, Effected, OneDecision, ComposedFirst;
    var now := s.clock + 1 + gap;
    var h := s.handler.value;
    var s' := Effected(s.(clock := now), h.effects[0], now);
    assert Base(w, s) by {
      CoreOf(w, s);
    }
    FirstIsOk(s.rows, s.files, h.effects);
    if s'.Some? {
      EffectKeeps(w, s, h.effects[0], now);
      RestEffectsOk(s.rows, s'.value.rows, h.effects, now);
      RestOneDecision(h.effects);
      ComposedStays(s, h.effects, now);
      EffectLeavesHandler(s, h.effects[0], now);
      if h.effects[1..] == [] {
        HandlerOnly(w, s'.value, None, if h.msg.Tick? then h.begun else s'.value.lastTick);
      } else {
        HandlerOnly(w, s'.value, Some(h.(effects := h.effects[1..])), s'.value.lastTick);
      }
    } else {
      RowsLater(s.rows, s.clock, now);
      ClockOnly(w, s, now);
      HandlerOnly(w, s.(clock := now), None, s.lastTick);
    }
  }

  lemma EffectLeavesHandler(s: State, effect: Effect, now: nat)
    requires Effected(s.(clock := now), effect, now).Some?
    ensures Effected(s.(clock := now), effect, now).value.lastTick == s.lastTick
  {
  }

  lemma CoreOf(w: World, s: State)
    requires Inv(w, s)
    ensures Core(w, s)
  {
  }

  lemma FirstIsOk(rows: Rows, files: Files, effects: seq<Effect>)
    requires HandlerOk(rows, files, effects)
    ensures EffectOk(rows, effects[0])
    ensures effects[0].FinishAndVerify? ==> Stored(files, effects[0].key).Some?
  {
    assert effects[0] in effects;
  }
}
