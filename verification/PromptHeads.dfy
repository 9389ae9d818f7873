/** A contributor who keeps to the times keeps their place. */
module PromptHeads {
  import opened ContributorsDb
  import opened QueueLaws
  import opened Ceremony
  import opened CeremonyInvariant
  import opened CeremonySteps
  import opened CeremonyEvents
  import opened CeremonyTasks
  import opened CeremonySafety
  import opened TimedProgress
  import opened ServerOutcomes

  // ---- Who kicks ----

  predicate NoKick(effects: seq<Effect>) {
    forall e | e in effects :: !e.KickCurrent?
  }

  /** Only a tick has a kick to make. */
  ghost predicate KicksByTick(s: State) {
    s.handler.Some? && !s.handler.value.msg.Tick? ==> NoKick(s.handler.value.effects)
  }

  lemma PlansNoKick(config: Config, rows: Rows, msg: Msg, now: nat)
    requires !msg.Tick?
    ensures NoKick(PlanOf(config, rows, msg, now).effects)
  {
    hide MostRecentFinished, Current, IsHead, Position;
  }

  lemma BeginKicks(w: World, s: State, msg: Msg, gap: nat)
    ensures KicksByTick(Begun(w, s, msg, gap))
  {
    hide PlanOf;
    if !msg.Tick? {
      PlansNoKick(w.config, s.rows, msg, s.clock + 1 + gap);
    }
  }

  lemma PerformKicks(s: State, gap: nat)
    requires KicksByTick(s) && s.handler.Some? && s.handler.value.effects != []
    ensures KicksByTick(Performed(s, gap))
  {
    hide Effected;
    var h := s.handler.value;
    var now := s.clock + 1 + gap;
    assert forall e | e in h.effects[1..] :: e in h.effects;
    if Effected(s.(clock := now), h.effects[0], now).Some? {
      EffectLeavesHandler(s, h.effects[0], now);
    }
  }

  lemma NextKicks(w: World, s: State, e: Event)
    requires KicksByTick(s)
    ensures KicksByTick(Next(w, s, e))
  {
    hide Begun, Performed;
    if CanHappen(s, e) {
      match e
      case Begin(msg, gap) => BeginKicks(w, s, msg, gap);
      case Perform(gap) => PerformKicks(s, gap);
      case _ =>
    }
  }

  lemma {:induction false} RunKicks(w: World, clock: nat, run: seq<Event>)
    ensures KicksByTick(After(w, Initial(clock), run))
  {
    hide Next, KicksByTick;
    if run == [] {
      NothingKicks(clock);
    } else {
      RunKicks(w, clock, run[..|run| - 1]);
      NextKicks(w, After(w, Initial(clock), run[..|run| - 1]), run[|run| - 1]);
    }
  }

  lemma NothingKicks(clock: nat)
    ensures KicksByTick(Initial(clock))
  {
  }

  // ---- Why a head leaves ----

  /** A tick under way has found the head late, by its reading of the clock. */
  ghost predicate FoundLate(config: Config, s: State, k: Key) {
    s.handler.Some? && s.handler.value.msg.Tick? && k in s.rows && !Prompt(config, s.rows[k], s.handler.value.begun)
  }

  lemma WriteKeepsHead(rows: Rows, j: Key, move: Move, clock: nat, now: nat, k: Key)
    requires RowsOk(rows, clock) && Enabled(rows, j, move) && clock < now && IsHead(rows, k) && !move.FinishVerify? && !move.Kick?
    ensures IsHead(Updated(rows, j, move, now), k)
  {
    hide RowsOk, IsHead, Updated;
    RowsApart(rows, clock);
    if KeepsQueue(move) {
      QueueKept(rows, j, move, now);
    } else {
      Joined(rows, j, clock, now);
    }
  }

  lemma EffectKeepsHead(s: State, effect: Effect, now: nat, k: Key)
    requires RowsOk(s.rows, s.clock) && s.clock < now && IsHead(s.rows, k) && EffectOk(s.rows, effect) && !effect.KickCurrent?
    requires Effected(s.(clock := now), effect, now).Some?
    ensures IsHead(Effected(s.(clock := now), effect, now).value.rows, k)
  {
    hide RowsOk, IsHead, Updated;
    match effect
    case Write(j, move) => WriteKeepsHead(s.rows, j, move, s.clock, now, k);
    case FinishAndVerify(j, hash) => WriteKeepsHead(s.rows, j, FinishUpload(hash), s.clock, now, k);
    case _ =>
  }

  lemma TickKicksLate(w: World, s: State, k: Key)
    requires Inv(w, s) && TickOk(w, s) && IsHead(s.rows, k)
    requires s.handler.Some? && s.handler.value.msg.Tick? && s.handler.value.effects != [] && s.handler.value.effects[0].KickCurrent?
    ensures FoundLate(w.config, s, k)
  {
    hide Inv, RowsOk, IsHead, Current, TickEffects, Prompt, KickedFor;
    InvRows(w, s);
    HeadIsQueued(s.rows, k);
    CurrentKnown(s.rows, k, s.clock);
    TickMeans(w.config, s.rows, k, s.handler.value.begun, s.clock);
  }

  lemma PerformKeepsHead(w: World, s: State, gap: nat, k: Key)
    requires Inv(w, s) && TickOk(w, s) && KicksByTick(s) && IsHead(s.rows, k) && s.handler.Some? && s.handler.value.effects != []
    ensures IsHead(Performed(s, gap).rows, k) || FoundLate(w.config, s, k)
  {
    hide Inv, RowsOk, IsHead, Effected, EffectOk, TickOk, FoundLate, HandlerOk;
    var h := s.handler.value;
    var now := s.clock + 1 + gap;
    InvRows(w, s);
    InvEffect(w, s);
    assert h.effects[0] in h.effects;
    if h.effects[0].KickCurrent? {
      TickKicksLate(w, s, k);
    } else if Effected(s.(clock := now), h.effects[0], now).Some? {
      EffectKeepsHead(s, h.effects[0], now, k);
    }
  }

  lemma InvEffect(w: World, s: State)
    requires Inv(w, s) && s.handler.Some? && s.handler.value.effects != []
    ensures EffectOk(s.rows, s.handler.value.effects[0])
  {
    hide RowsOk, EffectOk;
    FirstIsOk(s.rows, s.files, s.handler.value.effects);
  }

  lemma ConcludedHead(w: World, s: State, id: nat, k: Key)
    requires Inv(w, s) && CanHappen(s, Conclude(id, 0)) && IsHead(s.rows, k)
    ensures VerifyingHead(s.rows, k)
  {
    TaskData(w, s, id);
    InvRows(w, s);
    hide Inv;
    HeadUnique(s.rows, s.jobs[id].key, k, s.clock);
  }

  /** A head leaves for two reasons only: their verification has ended, or a tick has found them
      silent for longer than the ping timeout or late in the step they are in. */
  lemma HeadLeavesForCause(w: World, s: State, e: Event, k: Key)
    requires Inv(w, s) && TickOk(w, s) && KicksByTick(s) && IsHead(s.rows, k) && !IsHead(Next(w, s, e).rows, k)
    ensures (e.Conclude? && VerifyingHead(s.rows, k)) || (e.Perform? && FoundLate(w.config, s, k))
  {
    hide Inv, IsHead, Performed, Concluded, PlanOf, VerifyingHead, FoundLate, TickOk, KicksByTick;
    if CanHappen(s, e) {
      InvHandler(w, s);
      match e
      case Perform(gap) => PerformKeepsHead(w, s, gap, k);
      case Conclude(id, gap) => ConcludedHead(w, s, id, k);
      case _ =>
    }
  }

  // ---- Runs ----

  /** No tick of the run finds the contributor late. */
  ghost predicate AlwaysPrompt(w: World, s: State, run: seq<Event>, k: Key) {
    forall i | 0 <= i < |run| :: !FoundLate(w.config, After(w, s, run[..i]), k)
  }

  /** At some moment of the run the upload was being verified. */
  ghost predicate GotVerified(w: World, s: State, run: seq<Event>, k: Key) {
    exists i :: 0 <= i <= |run| && VerifyingHead(After(w, s, run[..i]).rows, k)
  }

  lemma PromptEarlier(w: World, s: State, run: seq<Event>, k: Key)
    requires AlwaysPrompt(w, s, run, k) && run != []
    ensures AlwaysPrompt(w, s, run[..|run| - 1], k) && !FoundLate(w.config, After(w, s, run[..|run| - 1]), k)
  {
    hide FoundLate, After;
    var run' := run[..|run| - 1];
    forall i | 0 <= i < |run'| ensures !FoundLate(w.config, After(w, s, run'[..i]), k) {
      assert run'[..i] == run[..i];
    }
  }

  lemma VerifiedLater(w: World, s: State, run: seq<Event>, k: Key)
    requires run != []
    ensures GotVerified(w, s, run[..|run| - 1], k) ==> GotVerified(w, s, run, k)
    ensures VerifyingHead(After(w, s, run[..|run| - 1]).rows, k) ==> GotVerified(w, s, run, k)
  {
    hide VerifyingHead, After;
    var run' := run[..|run| - 1];
    if i :| 0 <= i <= |run'| && VerifyingHead(After(w, s, run'[..i]).rows, k) {
      assert run'[..i] == run[..i];
    }
    assert run[..|run| - 1] == run';
  }

  /** Over any run in which no tick finds them late, whatever others do and whatever fails, a
      contributor at the head stays there until their upload is verified. */
  lemma {:induction false} PromptHeadsStay(w: World, s: State, run: seq<Event>, k: Key)
    requires Inv(w, s) && TickOk(w, s) && KicksByTick(s) && IsHead(s.rows, k) && AlwaysPrompt(w, s, run, k)
    ensures Inv(w, After(w, s, run)) && TickOk(w, After(w, s, run)) && KicksByTick(After(w, s, run))
    ensures IsHead(After(w, s, run).rows, k) || GotVerified(w, s, run, k)
  {
    hide Inv, Next, IsHead, AlwaysPrompt, GotVerified, VerifyingHead, FoundLate, TickOk, KicksByTick;
    if run != [] {
      var run', e := run[..|run| - 1], run[|run| - 1];
      var t := After(w, s, run');
      PromptEarlier(w, s, run, k);
      VerifiedLater(w, s, run, k);
      PromptHeadsStay(w, s, run', k);
      NextKeeps(w, t, e);
      NextTickOk(w, t, e);
      NextKicks(w, t, e);
      if IsHead(t.rows, k) && !IsHead(Next(w, t, e).rows, k) {
        HeadLeavesForCause(w, t, e, k);
      }
    }
  }

  /** So it is in every run of the server. */
  lemma PromptTurns(w: World, clock: nat, before: seq<Event>, run: seq<Event>, k: Key)
    requires var s := After(w, Initial(clock), before); IsHead(s.rows, k) && AlwaysPrompt(w, s, run, k)
    ensures var s := After(w, Initial(clock), before);
      IsHead(After(w, s, run).rows, k) || GotVerified(w, s, run, k)
  {
    hide Inv, Next, After, IsHead, AlwaysPrompt, GotVerified, TickOk, KicksByTick;
    RunKeeps(w, clock, before);
    RunTickOk(w, clock, before);
    RunKicks(w, clock, before);
    PromptHeadsStay(w, After(w, Initial(clock), before), run, k);
  }

  /** In particular no tick, whenever it comes and whatever it does, takes the place of a head who
      was heard of within the ping timeout and is within the timeout of the step. */
  lemma PromptSurvivesTick(w: World, s: State, k: Key, gap: nat, later: nat)
    requires Inv(w, s) && TickOk(w, s) && s.handler.None? && IsHead(s.rows, k) && k in s.rows
    requires Prompt(w.config, s.rows[k], s.clock + 1 + gap)
    ensures var t := Next(w, Next(w, s, Begin(Tick, gap)), Perform(later));
      IsHead(t.rows, k) && t.handler.None?
  {
    hide Inv, IsHead, TickEffects, Prompt, RowsOk, Current, Updated;
    var time := s.clock + 1 + gap;
    InvRows(w, s);
    CurrentKnown(s.rows, k, s.clock);
    TickMeans(w.config, s.rows, k, time, s.clock);
    if s.rows[k].startedDownloadAt.None? {
      QueueKept(s.rows, k, StartDownload, time + 1 + later);
    }
  }
}
