/**
 * When the reflection engine calls its model, how often a set is tried, how long it cools down, and
 * when it is given up.
 */
module ReflectionRetries {
  import opened Common
  import opened Reflection

  // ---- when a trigger sets to work -----------------------------------------------------------------

  /**
   * The trigger carries a set through: the one at work unless it cools down and the trigger is an
   * automatic one, or else the whole pool, once it is large enough and its set was not processed before.
   */
  ghost predicate Works(cfg: Config, s: Refl, trigger: Trigger, now: int) {
    && cfg.hasReflector
    && if s.running.Some? then trigger == ByHand || s.running.value.nextAttemptAt == None || s.running.value.nextAttemptAt.value <= now
       else s.pending != [] && (trigger == ByHand || |s.pending| >= cfg.minObservations) && cfg.hash(s.pending) !in s.processed
  }

  function SetAtWork(s: Refl): seq<string> {
    if s.running.Some? then s.running.value.recordIds else s.pending
  }

  ghost predicate Screened(ids: seq<string>, env: Env) {
    forall id :: id in ids ==> env.redactOk(id)
  }

  lemma WorkIsRunSet(cfg: Config, s: Refl, trigger: Trigger, now: int, env: Env, fuel: nat)
    requires Works(cfg, s, trigger, now)
    ensures RunOnce(cfg, s, trigger, now, env, fuel) == RunSet(cfg, Started(cfg, s, now), env, 0, fuel)
  {
    hide RunSet;
  }

  /** Otherwise nothing is called, queued or parked, and the set at work stays as it is. */
  lemma IdleTriggerDoesNothing(cfg: Config, s: Refl, trigger: Trigger, now: int, env: Env, fuel: nat)
    requires !Works(cfg, s, trigger, now)
    ensures var r := RunOnce(cfg, s, trigger, now, env, fuel);
            && r.calls == 0 && !r.died
            && (r.state == s || (s.running.None? && cfg.hash(s.pending) in s.processed
                                 && r.state == s.(pending := [], dropped := s.dropped + SetOf(s.pending))))
  {
    hide Attempt, Rederive;
  }

  /** The model is called exactly when there is work, every record passes the screen, and the process lives to call. */
  lemma ModelIsCalledIff(cfg: Config, s: Refl, trigger: Trigger, now: int, env: Env, fuel: nat)
    requires Inv(cfg, s, false) && (s.running.Some? ==> s.running.value.recordIds != [])
    ensures RunOnce(cfg, s, trigger, now, env, fuel).calls > 0 <==>
              Works(cfg, s, trigger, now) && Screened(SetAtWork(s), env) && fuel > 0
  {
    hide RunSet, RunOnce, Inv;
    if Works(cfg, s, trigger, now) {
      WorkIsRunSet(cfg, s, trigger, now, env, fuel);
      StartedKeepsInv(cfg, s, now, false);
      RunCallsIff(cfg, Started(cfg, s, now), env, fuel);
    } else {
      IdleTriggerDoesNothing(cfg, s, trigger, now, env, fuel);
    }
  }

  lemma RunCallsIff(cfg: Config, s: Refl, env: Env, fuel: nat)
    requires Inv(cfg, s, false) && s.running.Some? && s.running.value.recordIds != [] && cfg.hasReflector
    ensures RunSet(cfg, s, env, 0, fuel).calls > 0 <==> Screened(s.running.value.recordIds, env) && fuel > 0
  {
    RederiveDoesNothing(cfg, s, false);
    hide Inv, Rederive, Returned, NoteAll, ArmRetry;
  }

  // ---- what a run leaves behind ------------------------------------------------------------------------

  /** It ends at one of its calls, with these records at the model: answered, failed, or with the process. */
  datatype End =
    | Answered(ids: seq<string>, call: nat)
    | FailedTry(ids: seq<string>, call: nat)
    | Died(ids: seq<string>, call: nat)

  function EndsAs(ids: seq<string>, env: Env, k: nat, fuel: nat): (r: End)
    ensures r.ids <= ids && (ids != [] ==> r.ids != []) && r.call >= k && (|r.ids| < |ids| ==> r.call > k)
    decreases |ids|
  {
    if exists id :: id in ids && !env.redactOk(id) then FailedTry(ids, k)
    else if fuel == 0 then Died(ids, k)
    else
      match env.reply(k)
      case Answers => Answered(ids, k)
      case Fails => FailedTry(ids, k)
      case BudgetExceeded => if |ids| > 1 then EndsAs(ids[..(|ids| + 1) / 2], env, k + 1, fuel - 1) else FailedTry(ids, k)
  }

  /** A part cut off the set is a new set: begun at the call before, never tried. */
  function PartOf(cfg: Config, item: Item, end: End, env: Env): Item {
    if |end.ids| < |item.recordIds| && end.call > 0 then
      Item(cfg.hash(end.ids), end.ids, env.clock(end.call - 1), 0, item.nextAttemptAt)
    else item
  }

  function Doubled(base: int, n: nat): int {
    if n == 0 then base else 2 * Doubled(base, n - 1)
  }

  lemma {:induction false} DoubledIs(base: int, n: nat)
    ensures base * Pow2(n) == Doubled(base, n)
  {
    if n > 0 {
      DoubledIs(base, n - 1);
      assert base * (2 * Pow2(n - 1)) == 2 * (base * Pow2(n - 1));
    }
  }

  /** The pool may have grown; of the records here nothing left it but `gone`. */
  ghost predicate LeavesThePool(s: Refl, t: Refl, gone: seq<string>) {
    && (forall id :: id in gone ==> id !in t.pending)
    && (forall id :: id in s.pending && id !in gone ==> id in t.pending)
  }

  ghost predicate NothingIsGivenUp(s: Refl, t: Refl) {
    t.parked == s.parked && t.skipped == s.skipped
  }

  /**
   * What a failed try leaves. At the limit the records leave the pool and are parked; below it the set
   * stays at work, due after the base time doubled with every earlier failure, at most sixteen times and
   * under the cap.
   */
  ghost predicate AfterFailing(cfg: Config, s: Refl, t: Refl, item: Item, now: int) {
    var tries := item.attempts + 1;
    && t.jobs == s.jobs && t.processed == s.processed && t.summarised == s.summarised
    && if tries >= cfg.maxAttemptsPerSet then
         && t.running == None && t.parked == s.parked + SetOf(item.recordIds) && LeavesThePool(s, t, item.recordIds)
         && t.skipped == LastN(s.skipped + [item.setHash], cfg.maxProcessedSets)
       else
         && t.running == Some(Item(item.setHash, item.recordIds, item.startedAt, tries,
                                   Some(now + Min(RETRY_CAP_MS, Doubled(RETRY_BASE_MS, Min(tries - 1, 16))))))
         && NothingIsGivenUp(s, t) && LeavesThePool(s, t, [])
  }

  /** What an answer leaves: with every job durable the set is done with and remembered, otherwise it stays at work. */
  ghost predicate AfterAnswering(cfg: Config, s: Refl, t: Refl, item: Item, q: Queued) {
    && NothingIsGivenUp(s, t)
    && t.jobs == (if q.NoJob? then s.jobs else s.jobs + [Job(item.setHash, item.recordIds, q.AllJobs?)])
    && if q.AllJobs? then
         && t.running == None && LeavesThePool(s, t, item.recordIds) && t.summarised == s.summarised + SetOf(item.recordIds)
         && t.processed == LastN(s.processed + [item.setHash], cfg.maxProcessedSets)
       else
         t.running == Some(item) && LeavesThePool(s, t, []) && t.summarised == s.summarised && t.processed == s.processed
  }

  ghost predicate After(cfg: Config, s: Refl, t: Refl, item: Item, end: End, env: Env) {
    match end
    case Answered(_, call) => AfterAnswering(cfg, s, t, PartOf(cfg, item, end, env), env.queued(call))
    case FailedTry(_, call) => AfterFailing(cfg, s, t, PartOf(cfg, item, end, env), env.clock(call))
    case Died(_, _) => AfterAnswering(cfg, s, t, PartOf(cfg, item, end, env), NoJob)
  }

  lemma RetryIs(cfg: Config, s: Refl, now: int)
    requires s.running.Some? && RunningOk(cfg, s)
    ensures AfterFailing(cfg, s, ArmRetry(cfg, s, now), s.running.value, now)
  {
    DoubledIs(RETRY_BASE_MS, Min(s.running.value.attempts, 16));
    hide Pow2, Doubled, LastN;
  }

  lemma AcceptIs(cfg: Config, s: Refl, q: Queued)
    requires s.running.Some? && RunningOk(cfg, s)
    ensures AfterAnswering(cfg, s, Accept(cfg, s, q), s.running.value, q)
  {
    hide LastN;
  }

  /** The same, seen from before the records arrived that came in meanwhile. */
  ghost predicate Grown(s: Refl, m: Refl) {
    && m.jobs == s.jobs && m.processed == s.processed && m.summarised == s.summarised && NothingIsGivenUp(s, m)
    && m.running == s.running && forall id :: id in s.pending ==> id in m.pending
  }

  lemma {:induction false} NoteAllGrows(cfg: Config, s: Refl, ids: seq<string>)
    ensures Grown(s, NoteAll(cfg, s, ids))
    decreases |ids|
  {
    if ids != [] { NoteAllGrows(cfg, s, ids[..|ids| - 1]); }
  }

  lemma GrownAfter(cfg: Config, s: Refl, m: Refl, t: Refl, item: Item, end: End, env: Env)
    requires Grown(s, m) && After(cfg, m, t, item, end, env)
    ensures After(cfg, s, t, item, end, env)
  {
    hide PartOf, Doubled, LastN;
  }

  /** Halving changes the set at work and nothing else. */
  lemma HalfAfter(cfg: Config, s: Refl, half: Refl, t: Refl, item: Item, end: End, env: Env, k: nat)
    requires half.running.Some?
    requires half.running == Some(Item(cfg.hash(half.running.value.recordIds), half.running.value.recordIds, env.clock(k), 0, item.nextAttemptAt))
    requires |half.running.value.recordIds| < |item.recordIds| && half == s.(running := half.running)
    requires end.ids <= half.running.value.recordIds && end.call >= k + 1
    requires |end.ids| < |half.running.value.recordIds| || end.call == k + 1
    requires After(cfg, half, t, half.running.value, end, env)
    ensures After(cfg, s, t, item, end, env)
  {
    hide Doubled, LastN;
    if |end.ids| == |half.running.value.recordIds| { assert end.ids == half.running.value.recordIds; }
    assert PartOf(cfg, item, end, env) == PartOf(cfg, half.running.value, end, env);
    hide PartOf;
  }

  lemma {:induction false} SameSetSameCall(ids: seq<string>, env: Env, k: nat, fuel: nat)
    ensures var end := EndsAs(ids, env, k, fuel); |end.ids| == |ids| ==> end.ids == ids && end.call == k
  {
  }

  lemma {:induction false} RunSetEnds(cfg: Config, s: Refl, env: Env, k: nat, fuel: nat)
    requires Inv(cfg, s, false) && s.running.Some? && s.running.value.recordIds != [] && cfg.hasReflector
    ensures After(cfg, s, RunSet(cfg, s, env, k, fuel).state, s.running.value, EndsAs(s.running.value.recordIds, env, k, fuel), env)
    decreases |s.running.value.recordIds|, 2
  {
    hide Inv, ArmRetry, Returned, AfterFailing, AfterAnswering, After, NoteAll, Rederive;
    RederiveDoesNothing(cfg, s, false);
    var ids := s.running.value.recordIds;
    if exists id :: id in ids && !env.redactOk(id) {
      HeldEnds(cfg, s, env, k, fuel);
    } else if fuel == 0 {
      DyingEnds(cfg, s, env, k);
    } else {
      var m := NoteAll(cfg, s, env.arrivals(k));
      NoteAllKeepsInv(cfg, s, env.arrivals(k), false);
      NoteAllGrows(cfg, s, env.arrivals(k));
      assert m.running == s.running;
      ReturnedEnds(cfg, m, env, k, fuel);
      GrownAfter(cfg, s, m, Returned(cfg, m, env, k, fuel - 1).state, s.running.value, EndsAs(ids, env, k, fuel), env);
    }
  }

  lemma HeldEnds(cfg: Config, s: Refl, env: Env, k: nat, fuel: nat)
    requires Inv(cfg, s, false) && s.running.Some?
    requires exists id :: id in s.running.value.recordIds && !env.redactOk(id)
    ensures After(cfg, s, ArmRetry(cfg, s, env.clock(k)), s.running.value, EndsAs(s.running.value.recordIds, env, k, fuel), env)
  {
    hide AfterFailing, AfterAnswering, ArmRetry, Hashed, FinishedFor;
    RetryIs(cfg, s, env.clock(k));
  }

  lemma DyingEnds(cfg: Config, s: Refl, env: Env, k: nat)
    requires Inv(cfg, s, false) && s.running.Some?
    requires forall id :: id in s.running.value.recordIds ==> env.redactOk(id)
    ensures After(cfg, s, s, s.running.value, EndsAs(s.running.value.recordIds, env, k, 0), env)
  {
    hide AfterFailing, Inv;
  }

  lemma ReturnedEnds(cfg: Config, s: Refl, env: Env, k: nat, fuel: nat)
    requires Inv(cfg, s, false) && s.running.Some? && s.running.value.recordIds != [] && cfg.hasReflector && fuel > 0
    requires forall id :: id in s.running.value.recordIds ==> env.redactOk(id)
    ensures After(cfg, s, Returned(cfg, s, env, k, fuel - 1).state, s.running.value, EndsAs(s.running.value.recordIds, env, k, fuel), env)
    decreases |s.running.value.recordIds|, 0
  {
    hide Inv, ArmRetry, Accept, AfterFailing, AfterAnswering, RunSet, SplitInHalf;
    InvSays(cfg, s);
    var ids := s.running.value.recordIds;
    if env.reply(k) == Answers {
      AcceptIs(cfg, s, env.queued(k));
    } else if env.reply(k) == BudgetExceeded && |ids| > 1 {
      hide After, PartOf;
      HalvedEnds(cfg, s, env, k, fuel);
    } else {
      RetryIs(cfg, s, env.clock(k));
    }
  }

  lemma HalvedEnds(cfg: Config, s: Refl, env: Env, k: nat, fuel: nat)
    requires Inv(cfg, s, false) && s.running.Some? && |s.running.value.recordIds| > 1 && cfg.hasReflector && fuel > 0
    requires env.reply(k) == BudgetExceeded && forall id :: id in s.running.value.recordIds ==> env.redactOk(id)
    ensures var half := SplitInHalf(cfg, s, env.clock(k));
            After(cfg, s, RunSet(cfg, half, env, k + 1, fuel - 1).state, s.running.value, EndsAs(s.running.value.recordIds, env, k, fuel), env)
    decreases |s.running.value.recordIds|, -1
  {
    hide Inv, RunSet, After, PartOf;
    var half := SplitInHalf(cfg, s, env.clock(k));
    var head := half.running.value.recordIds;
    SplitKeepsInv(cfg, s, env.clock(k), false);
    RunSetEnds(cfg, half, env, k + 1, fuel - 1);
    SameSetSameCall(head, env, k + 1, fuel - 1);
    var end := EndsAs(s.running.value.recordIds, env, k, fuel);
    assert end == EndsAs(head, env, k + 1, fuel - 1);
    hide EndsAs;
    HalfAfter(cfg, s, half, RunSet(cfg, half, env, k + 1, fuel - 1).state, s.running.value, end, env, k);
  }

  lemma InvSays(cfg: Config, s: Refl)
    requires Inv(cfg, s, false)
    ensures RunningOk(cfg, s)
  {
  }

  /** The process dies with the end that says so, or while accepting; every call made is counted. */
  ghost predicate CountedRight(r: Ran, end: End, env: Env, k: nat) {
    && (r.died <==> end.Died? || (end.Answered? && env.queued(end.call) == ReflectionOnly(true)))
    && r.calls == end.call - k + (if end.Died? || !Screened(end.ids, env) then 0 else 1)
  }

  lemma {:induction false} RunSetCounts(cfg: Config, s: Refl, env: Env, k: nat, fuel: nat)
    requires Inv(cfg, s, false) && s.running.Some? && s.running.value.recordIds != [] && cfg.hasReflector
    ensures var ids := s.running.value.recordIds;
            CountedRight(RunSet(cfg, s, env, k, fuel), EndsAs(ids, env, k, fuel), env, k)
    decreases |s.running.value.recordIds|, 2
  {
    hide Inv, ArmRetry, Returned, NoteAll, Rederive;
    RederiveDoesNothing(cfg, s, false);
    var ids := s.running.value.recordIds;
    if fuel > 0 && Screened(ids, env) {
      NoteAllKeepsInv(cfg, s, env.arrivals(k), false);
      ReturnedCounts(cfg, NoteAll(cfg, s, env.arrivals(k)), env, k, fuel);
    }
  }

  lemma ReturnedCounts(cfg: Config, s: Refl, env: Env, k: nat, fuel: nat)
    requires Inv(cfg, s, false) && s.running.Some? && s.running.value.recordIds != [] && cfg.hasReflector && fuel > 0
    requires Screened(s.running.value.recordIds, env)
    ensures var ids, r := s.running.value.recordIds, Returned(cfg, s, env, k, fuel - 1);
            CountedRight(Ran(r.state, r.calls + 1, r.died), EndsAs(ids, env, k, fuel), env, k)
    decreases |s.running.value.recordIds|, 0
  {
    hide Inv, ArmRetry, Accept, RunSet;
    if env.reply(k) == BudgetExceeded && |s.running.value.recordIds| > 1 {
      SplitKeepsInv(cfg, s, env.clock(k), false);
      RunSetCounts(cfg, SplitInHalf(cfg, s, env.clock(k)), env, k + 1, fuel - 1);
    }
  }

  // ---- whole runs ---------------------------------------------------------------------------------------

  function ItemAtWork(cfg: Config, s: Refl, now: int): Item {
    if s.running.Some? then s.running.value else Item(cfg.hash(s.pending), s.pending, now, 0, None)
  }

  /** What holds in every run: the records are where they belong, and a set at work is not empty and below the limit. */
  ghost predicate Sound(cfg: Config, s: Refl) {
    && Inv(cfg, s, false)
    && (s.running.Some? ==> s.running.value.recordIds != [] && (s.running.value.attempts > 0 ==> s.running.value.attempts < cfg.maxAttemptsPerSet))
  }

  /** Every trigger that works leaves what its ending calls for. */
  lemma WorkingTriggerLeaves(cfg: Config, s: Refl, trigger: Trigger, now: int, env: Env, fuel: nat)
    requires Sound(cfg, s) && Works(cfg, s, trigger, now)
    ensures After(cfg, s, RunOnce(cfg, s, trigger, now, env, fuel).state, ItemAtWork(cfg, s, now), EndsAs(SetAtWork(s), env, 0, fuel), env)
    ensures CountedRight(RunOnce(cfg, s, trigger, now, env, fuel), EndsAs(SetAtWork(s), env, 0, fuel), env, 0)
  {
    hide Inv, RunSet, RunOnce, After, EndsAs, CountedRight;
    WorkIsRunSet(cfg, s, trigger, now, env, fuel);
    StartedKeepsInv(cfg, s, now, false);
    RunSetCounts(cfg, Started(cfg, s, now), env, 0, fuel);
    RunSetEnds(cfg, Started(cfg, s, now), env, 0, fuel);
    BeforeTheStart(cfg, s, Started(cfg, s, now), RunSet(cfg, Started(cfg, s, now), env, 0, fuel).state, ItemAtWork(cfg, s, now), EndsAs(SetAtWork(s), env, 0, fuel), env);
  }

  lemma BeforeTheStart(cfg: Config, s: Refl, m: Refl, t: Refl, item: Item, end: End, env: Env)
    requires m == s.(running := m.running) && After(cfg, m, t, item, end, env)
    ensures After(cfg, s, t, item, end, env)
  {
    hide PartOf, Doubled, LastN;
  }

  /** The event is a trigger whose try of exactly these records fails. */
  ghost predicate FailsOn(cfg: Config, s: Refl, e: Event, part: seq<string>) {
    && e.Trigger? && Works(cfg, s, e.trigger, e.now)
    && var end := EndsAs(SetAtWork(s), e.env, 0, e.fuel); end.FailedTry? && end.ids == part
  }

  /** How many tries of exactly these records failed in a run. */
  ghost function FailedTries(cfg: Config, events: seq<Event>, part: seq<string>): nat {
    if events == [] then 0
    else
      var n := |events| - 1;
      FailedTries(cfg, events[..n], part) + if FailsOn(cfg, Run(cfg, Fresh, events[..n]), events[n], part) then 1 else 0
  }

  /** What an event leaves at work was there before, cut off just now, or newly started. */
  lemma StepAtWork(cfg: Config, s: Refl, e: Event)
    requires Sound(cfg, s) && SetIdentity(cfg)
    ensures var t := Apply(cfg, s, e);
            && Sound(cfg, t)
            && (t.running.Some? && t.running.value.attempts > 0 ==>
                  var item := t.running.value;
                  || (FailsOn(cfg, s, e, item.recordIds) && (item.attempts == 1 || (s.running.Some? && s.running.value.recordIds == item.recordIds
                                                                           && s.running.value.attempts == item.attempts - 1)))
                  || (s.running.Some? && s.running.value.recordIds == item.recordIds && s.running.value.attempts == item.attempts))
  {
    hide Inv, RunSet, RunOnce, EndsAs, NoteAccepted, SetIdentity;
    StepKeepsInv(cfg, s, e);
    if e.Trigger? {
      if Works(cfg, s, e.trigger, e.now) {
        WorkingTriggerLeaves(cfg, s, e.trigger, e.now, e.env, e.fuel);
        LeftAtWork(cfg, s, Apply(cfg, s, e), ItemAtWork(cfg, s, e.now), EndsAs(SetAtWork(s), e.env, 0, e.fuel), e.env);
        hide After;
      } else {
        IdleTriggerDoesNothing(cfg, s, e.trigger, e.now, e.env, e.fuel);
      }
    } else {
      NoteLeavesTheSet(cfg, s, e.id);
    }
  }

  lemma NoteLeavesTheSet(cfg: Config, s: Refl, id: string)
    ensures var t := NoteAccepted(cfg, s, id); t.running == s.running && NothingIsGivenUp(s, t)
  {
  }

  lemma StepKeepsInv(cfg: Config, s: Refl, e: Event)
    requires Inv(cfg, s, false) && SetIdentity(cfg)
    ensures Inv(cfg, Apply(cfg, s, e), false)
  {
    hide Inv, RunOnce, NoteAccepted, EventAdmissible, SetIdentity;
    match e
    case Note(id) => NoteKeepsInv(cfg, s, id, false);
    case Trigger(_, _, _, _) => TriggerKeepsInv(cfg, s, e, false);
  }

  lemma LeftAtWork(cfg: Config, s: Refl, t: Refl, item: Item, end: End, env: Env)
    requires After(cfg, s, t, item, end, env) && end.ids <= item.recordIds && end.ids != []
    requires |end.ids| < |item.recordIds| ==> end.call > 0
    requires item.attempts > 0 ==> item.attempts < cfg.maxAttemptsPerSet
    ensures t.running.Some? ==>
              var left := t.running.value;
              && left.recordIds == end.ids && (left.attempts > 0 ==> left.attempts < cfg.maxAttemptsPerSet)
              && var was := if end.ids == item.recordIds then item.attempts else 0;
                 left.attempts == if end.FailedTry? then was + 1 else was
    ensures t.parked == s.parked || (end.FailedTry? && t.parked == s.parked + SetOf(end.ids)
                                     && cfg.maxAttemptsPerSet <= 1 + if end.ids == item.recordIds then item.attempts else 0)
  {
    hide Doubled, LastN;
    if |end.ids| == |item.recordIds| { assert end.ids == item.recordIds; }
  }

  lemma {:induction false} RunIsSound(cfg: Config, events: seq<Event>)
    requires SetIdentity(cfg)
    ensures Sound(cfg, Run(cfg, Fresh, events))
    decreases |events|
  {
    hide Inv, Apply, SetIdentity, Fresh;
    if events == [] {
      FreshInv(cfg, false);
      FreshIsIdle();
    } else {
      LastEvent(cfg, events);
      RunIsSound(cfg, events[..|events| - 1]);
      StepAtWork(cfg, Run(cfg, Fresh, events[..|events| - 1]), events[|events| - 1]);
    }
  }

  lemma FreshIsIdle()
    ensures Fresh.running.None? && Fresh.parked == {}
  {
  }

  lemma LastEvent(cfg: Config, events: seq<Event>)
    requires events != []
    ensures Run(cfg, Fresh, events) == Apply(cfg, Run(cfg, Fresh, events[..|events| - 1]), events[|events| - 1])
  {
    hide Apply;
    var n := |events| - 1;
    assert events[..n] + [events[n]] == events;
    RunAppend(cfg, Fresh, events[..n], [events[n]]);
    RunOfOne(cfg, Run(cfg, Fresh, events[..n]), events[n]);
  }

  /** A set at work was tried no more often than its records failed, and less often than the limit. */
  lemma {:induction false} AttemptsAreCounted(cfg: Config, events: seq<Event>)
    requires SetIdentity(cfg) && Run(cfg, Fresh, events).running.Some?
    ensures var item := Run(cfg, Fresh, events).running.value;
            item.attempts <= FailedTries(cfg, events, item.recordIds) && (item.attempts > 0 ==> item.attempts < cfg.maxAttemptsPerSet)
    decreases |events|
  {
    hide Inv, Apply, SetIdentity, Fresh, FailsOn;
    RunIsSound(cfg, events);
    if events == [] {
      FreshIsIdle();
    } else {
      var n := |events| - 1;
      LastEvent(cfg, events);
      RunIsSound(cfg, events[..n]);
      StepAtWork(cfg, Run(cfg, Fresh, events[..n]), events[n]);
      if Run(cfg, Fresh, events[..n]).running.Some? { AttemptsAreCounted(cfg, events[..n]); }
    }
  }

  /** Records are parked only by a failed try of theirs, and only when it was at least their limit's. */
  lemma {:induction false} ParkedOnlyAtTheLimit(cfg: Config, events: seq<Event>, id: string)
    requires SetIdentity(cfg) && id in Run(cfg, Fresh, events).parked
    ensures exists n, part :: 0 <= n < |events| && id in part && FailsOn(cfg, Run(cfg, Fresh, events[..n]), events[n], part)
              && FailedTries(cfg, events[..n], part) + 1 >= cfg.maxAttemptsPerSet
    decreases |events|
  {
    hide Inv, Apply, SetIdentity, Fresh, FailsOn, FailedTries;
    if events == [] {
      FreshIsIdle();
    } else {
      var n := |events| - 1;
      var s := Run(cfg, Fresh, events[..n]);
      LastEvent(cfg, events);
      if id in s.parked {
        ParkedOnlyAtTheLimit(cfg, events[..n], id);
        var m, part :| 0 <= m < n && id in part && FailsOn(cfg, Run(cfg, Fresh, events[..n][..m]), events[..n][m], part)
          && FailedTries(cfg, events[..n][..m], part) + 1 >= cfg.maxAttemptsPerSet;
        assert events[..n][..m] == events[..m] && events[..n][m] == events[m];
      } else {
        RunIsSound(cfg, events[..n]);
        var part := StepParks(cfg, s, events[n], id);
        if s.running.Some? { AttemptsAreCounted(cfg, events[..n]); }
      }
    }
  }

  lemma StepParks(cfg: Config, s: Refl, e: Event, id: string) returns (part: seq<string>)
    requires Sound(cfg, s) && id !in s.parked && id in Apply(cfg, s, e).parked
    ensures id in part && FailsOn(cfg, s, e, part)
    ensures cfg.maxAttemptsPerSet <= 1 + if s.running.Some? && s.running.value.recordIds == part then s.running.value.attempts else 0
  {
    hide Inv, RunSet, RunOnce, EndsAs, NoteAccepted;
    part := [];
    if e.Trigger? {
      if Works(cfg, s, e.trigger, e.now) {
        WorkingTriggerLeaves(cfg, s, e.trigger, e.now, e.env, e.fuel);
        var end := EndsAs(SetAtWork(s), e.env, 0, e.fuel);
        LeftAtWork(cfg, s, Apply(cfg, s, e), ItemAtWork(cfg, s, e.now), end, e.env);
        hide After;
        part := end.ids;
      } else {
        IdleTriggerDoesNothing(cfg, s, e.trigger, e.now, e.env, e.fuel);
      }
    } else {
      NoteLeavesTheSet(cfg, s, e.id);
    }
  }

  // ---- failing in a row -----------------------------------------------------------------------------------

  /** Nothing happens but records coming in, triggers that do no work, and failing tries of the set at work. */
  ghost predicate OnlyFails(cfg: Config, s: Refl, events: seq<Event>, part: seq<string>)
    decreases |events|
  {
    events != [] ==>
      && (events[0].Note? || !Works(cfg, s, events[0].trigger, events[0].now) || FailsOn(cfg, s, events[0], part))
      && OnlyFails(cfg, Apply(cfg, s, events[0]), events[1..], part)
  }

  ghost function Fails(cfg: Config, s: Refl, events: seq<Event>, part: seq<string>): nat
    decreases |events|
  {
    if events == [] then 0
    else (if FailsOn(cfg, s, events[0], part) then 1 else 0) + Fails(cfg, Apply(cfg, s, events[0]), events[1..], part)
  }

  lemma {:induction false} FailuresAddUp(cfg: Config, s: Refl, events: seq<Event>, part: seq<string>)
    requires Sound(cfg, s) && SetIdentity(cfg) && s.running.Some? && s.running.value.recordIds == part
    requires OnlyFails(cfg, s, events, part) && s.running.value.attempts + Fails(cfg, s, events, part) < cfg.maxAttemptsPerSet
    ensures var t := Run(cfg, s, events);
            && Sound(cfg, t) && t.running.Some? && t.running.value.recordIds == part
            && t.running.value.attempts == s.running.value.attempts + Fails(cfg, s, events, part)
    decreases |events|
  {
    hide Inv, Apply, SetIdentity, FailsOn, Works;
    if events != [] {
      StepAtWork(cfg, s, events[0]);
      FailureAdds(cfg, s, events[0], part);
      FailuresAddUp(cfg, Apply(cfg, s, events[0]), events[1..], part);
    }
  }

  lemma FailureAdds(cfg: Config, s: Refl, e: Event, part: seq<string>)
    requires Sound(cfg, s) && s.running.Some? && s.running.value.recordIds == part
    requires e.Note? || !Works(cfg, s, e.trigger, e.now) || FailsOn(cfg, s, e, part)
    requires FailsOn(cfg, s, e, part) ==> s.running.value.attempts + 1 < cfg.maxAttemptsPerSet
    ensures var t := Apply(cfg, s, e);
            && t.running.Some? && t.running.value.recordIds == part
            && t.running.value.attempts == s.running.value.attempts + if FailsOn(cfg, s, e, part) then 1 else 0
  {
    hide Inv, RunSet, RunOnce, EndsAs, NoteAccepted;
    if e.Note? {
      NoteLeavesTheSet(cfg, s, e.id);
    } else if FailsOn(cfg, s, e, part) {
      WorkingTriggerLeaves(cfg, s, e.trigger, e.now, e.env, e.fuel);
      hide LeavesThePool, NothingIsGivenUp, Doubled, LastN;
    } else {
      IdleTriggerDoesNothing(cfg, s, e.trigger, e.now, e.env, e.fuel);
    }
  }

  /** However the failures of a set are spread, the next one parks it exactly when it is the limit's. */
  lemma GivenUpIff(cfg: Config, s: Refl, events: seq<Event>, e: Event, part: seq<string>)
    requires Sound(cfg, s) && SetIdentity(cfg) && s.running.Some? && s.running.value.recordIds == part
    requires OnlyFails(cfg, s, events, part) && s.running.value.attempts + Fails(cfg, s, events, part) < cfg.maxAttemptsPerSet
    requires FailsOn(cfg, Run(cfg, s, events), e, part)
    ensures var t := Apply(cfg, Run(cfg, s, events), e);
            if s.running.value.attempts + Fails(cfg, s, events, part) + 1 >= cfg.maxAttemptsPerSet then
              t.running == None && SetOf(part) <= t.parked && forall id :: id in part ==> id !in t.pending
            else
              t.running.Some? && t.running.value.recordIds == part && t.parked == Run(cfg, s, events).parked
  {
    hide Inv, RunSet, RunOnce, EndsAs, NoteAccepted, SetIdentity, Works, OnlyFails, Fails;
    FailuresAddUp(cfg, s, events, part);
    var m := Run(cfg, s, events);
    WorkingTriggerLeaves(cfg, m, e.trigger, e.now, e.env, e.fuel);
    hide Doubled, LastN;
  }

  // ---- a state that lost records -------------------------------------------------------------------------------

  /** Of a set at work only the records still in the pool are reflected, under the identity of what is left. */
  lemma VanishedRecordsAreLeftOut(cfg: Config, s: Refl, env: Env, k: nat, fuel: nat)
    requires s.running.Some? && cfg.hasReflector
    ensures var ids := Filter(s.running.value.recordIds, Among(s.pending));
            var left := if |ids| == |s.running.value.recordIds| then s.running.value else s.running.value.(recordIds := ids, setHash := cfg.hash(ids));
            if ids == [] then RunSet(cfg, s, env, k, fuel) == Ran(s.(running := None), 0, false)
            else RunSet(cfg, s, env, k, fuel) == RunSet(cfg, s.(running := Some(left)), env, k, fuel)
  {
    hide Filter, Returned, NoteAll, ArmRetry;
    var ids := Filter(s.running.value.recordIds, Among(s.pending));
    FilterAll(s.running.value.recordIds, Among(s.pending));
    FilterAllPresent(ids, Among(s.pending));
  }
}
