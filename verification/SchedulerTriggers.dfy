/**
 * What each trigger of the observer scheduler does, and why an entry was consumed: the reasons are
 * read off the events of the run, not off what the scheduler noted.
 */
module SchedulerTriggers {
  import opened Common
  import opened Coordinator
  import opened Scheduler
  import opened SchedulerSafety

  /** Text to extract that nothing has taken yet. */
  ghost predicate Usable(cfg: Config, s: Sched, e: Entry) {
    && !cfg.blank(e.text) && !cfg.excluded(e.text)
    && e.id !in s.coord.consumed && forall b :: b in s.pending ==> e.id !in b.entryIds
  }

  lemma SelectIff(cfg: Config, s: Sched, entries: seq<Entry>, e: Entry)
    ensures e in Select(cfg, s, entries) <==> e in entries && Usable(cfg, s, e)
  {
    InFlightIs(s.pending, e.id);
    hide InFlight;
  }

  ghost predicate Runs(s: Sched, opId: nat) {
    opId in s.queue || (s.active.Some? && s.active.value.opId == opId)
  }

  /** Some pending batch that is queued or running holds the entry. */
  ghost predicate InABatchThatRuns(s: Sched, id: string) {
    exists b :: b in s.pending && id in b.entryIds && Runs(s, b.opId)
  }

  // ---- private mode ----------------------------------------------------------------------------

  ghost predicate IsTrigger(e: Event) {
    e.AgentSettled? || e.Idle? || e.Manual? || e.Compact?
  }

  /** In private mode no trigger makes, widens or queues a batch. */
  lemma PrivateTriggersBatchNothing(cfg: Config, s: Sched, e: Event)
    requires IsTrigger(e) && e.isPrivate
    ensures var t := Apply(cfg, s, e);
            t.pending == s.pending && t.queue == s.queue && t.active == s.active && t.minted == s.minted && t.jobs == s.jobs
  {
    hide Select, MarkConsumed;
  }

  /** This event consumes what it shows, because it came in private mode. */
  ghost predicate ClosesPrivately(s: Sched, e: Event) {
    (e.AgentSettled? || e.Compact? || (e.Idle? && s.idleArmed)) && e.isPrivate
  }

  /**
   * A trigger consumes entries only in private mode, and then exactly the usable ones it was shown; a
   * manual flush leaves them for later.
   */
  lemma TriggersConsumePrivatelyOnly(cfg: Config, s: Sched, e: Event, id: string)
    requires IsTrigger(e)
    ensures id in Apply(cfg, s, e).coord.consumed <==>
              id in s.coord.consumed || (ClosesPrivately(s, e) && exists x :: x in e.entries && x.id == id && Usable(cfg, s, x))
  {
    hide Select, MarkConsumed, Fitting, Union, TotalTokens, Usable;
    if e.isPrivate {
      SelectedIds(cfg, s, e.entries, id);
      if e.AgentSettled? || e.Idle? { SelectedIds(cfg, s.(idleArmed := false), e.entries, id); }
      SameUsable(cfg, s, e.entries, id);
    } else {
      OpenTriggersConsumeNothing(cfg, s, e);
    }
  }

  lemma SelectedIds(cfg: Config, s: Sched, entries: seq<Entry>, id: string)
    ensures id in Ids(Select(cfg, s, entries)) <==> exists x :: x in entries && x.id == id && Usable(cfg, s, x)
  {
    hide Select, Usable;
    var chosen := Select(cfg, s, entries);
    if id in Ids(chosen) {
      var k :| 0 <= k < |chosen| && Ids(chosen)[k] == id;
      SelectIff(cfg, s, entries, chosen[k]);
    }
    if x :| x in entries && x.id == id && Usable(cfg, s, x) {
      SelectIff(cfg, s, entries, x);
      var k :| 0 <= k < |chosen| && chosen[k] == x;
      assert Ids(chosen)[k] == id;
    }
  }

  lemma SameUsable(cfg: Config, s: Sched, entries: seq<Entry>, id: string)
    ensures forall x :: Usable(cfg, s, x) <==> Usable(cfg, s.(idleArmed := false), x)
  {
  }

  lemma OpenTriggersConsumeNothing(cfg: Config, s: Sched, e: Event)
    requires IsTrigger(e) && !e.isPrivate
    ensures Apply(cfg, s, e).coord == s.coord && Apply(cfg, s, e).privateIds == s.privateIds
  {
    hide Select, Fitting, Union, TotalTokens;
    if e.AgentSettled? { RetryOnlyQueues(s.(idleArmed := false), s.pending, e.now); }
  }

  // ---- what consumes an entry -----------------------------------------------------------------------

  ghost predicate BatchHolds(pending: seq<Batch>, opId: nat, id: string) {
    exists b :: b in pending && b.opId == opId && id in b.entryIds
  }

  /** None of the batch's entries is in the session any more. */
  ghost predicate Gone(entries: seq<Entry>, ids: seq<string>) {
    forall x :: x in entries ==> x.id !in ids
  }

  /** The active run is of this generation, and its batch holds the entry. */
  ghost predicate FreshRunHolds(s: Sched, id: string) {
    s.active.Some? && s.active.value.generation == s.coord.generation && BatchHolds(s.pending, s.active.value.opId, id)
  }

  ghost predicate VanishesIn(s: Sched, entries: seq<Entry>, id: string) {
    && s.active.None? && s.queue != []
    && exists b :: b in s.pending && b.opId == s.queue[0] && id in b.entryIds && Gone(entries, b.entryIds)
  }

  /** What the event is to an entry it consumes: private, gone from the session, accepted, or left behind. */
  ghost predicate ConsumedBy(cfg: Config, s: Sched, e: Event, id: string) {
    match e
    case RunBegins(entries) => VanishesIn(s, entries, id)
    case RunEnds(reply, enqueued, _) => reply.ModelAnswered? && enqueued && FreshRunHolds(s, id)
    case DiesAccepting(marked) => marked && FreshRunHolds(s, id)
    case TreeDone(_, _, _, _) => s.coord.active && id in s.coord.stash
    case _ => IsTrigger(e) && ClosesPrivately(s, e) && exists x :: x in e.entries && x.id == id && Usable(cfg, s, x)
  }

  lemma {:induction false} TextOfIff(entries: seq<Entry>, id: string)
    ensures TextOf(entries, id).None? <==> forall x :: x in entries ==> x.id != id
  {
    if entries != [] {
      var init, last := entries[..|entries| - 1], entries[|entries| - 1];
      assert entries == init + [last];
      TextOfIff(init, id);
    }
  }

  lemma VanishedIff(entries: seq<Entry>, ids: seq<string>)
    ensures Vanished(entries, ids) <==> Gone(entries, ids)
  {
    hide TextOf;
    forall id ensures TextOf(entries, id).None? <==> forall x :: x in entries ==> x.id != id {
      TextOfIff(entries, id);
    }
  }

  lemma TheBatch(pending: seq<Batch>, opId: nat, id: string)
    requires OpIdsDistinct(pending)
    ensures match IndexOf(pending, opId)
            case None => !BatchHolds(pending, opId, id)
            case Some(k) => BatchHolds(pending, opId, id) <==> id in pending[k].entryIds
  {
    hide IndexOf;
    var k := IndexOf(pending, opId);
    if k.Some? && BatchHolds(pending, opId, id) {
      var b :| b in pending && b.opId == opId && id in b.entryIds;
      OnlyBatchOf(pending, k.value, b);
    }
    assert k.Some? ==> pending[k.value] in pending;
  }

  lemma OnlyBatchOf(pending: seq<Batch>, k: nat, b: Batch)
    requires OpIdsDistinct(pending) && k < |pending| && b in pending && b.opId == pending[k].opId
    ensures b == pending[k]
  {
    var i :| 0 <= i < |pending| && pending[i] == b;
  }

  lemma BeginConsumes(cfg: Config, s: Sched, entries: seq<Entry>, id: string)
    requires OpIdsDistinct(s.pending)
    ensures id in BeginRun(cfg, s, entries).coord.consumed <==> id in s.coord.consumed || VanishesIn(s, entries, id)
    ensures id in BeginRun(cfg, s, entries).vanishedIds <==> id in s.vanishedIds || VanishesIn(s, entries, id)
  {
    hide OpIdsDistinct, IndexOf, MarkConsumed, Vanished, HeldByRedaction, Filter, Gone;
    if s.active.None? && s.queue != [] {
      var k := IndexOf(s.pending, s.queue[0]);
      if k.Some? {
        assert s.pending[k.value] in s.pending;
        VanishedIff(entries, s.pending[k.value].entryIds);
        if b :| b in s.pending && b.opId == s.queue[0] && id in b.entryIds && Gone(entries, b.entryIds) {
          OnlyBatchOf(s.pending, k.value, b);
        }
      }
    }
  }

  lemma EndConsumes(cfg: Config, s: Sched, e: Event, id: string)
    requires OpIdsDistinct(s.pending) && (e.RunEnds? || e.DiesAccepting?)
    ensures id in Apply(cfg, s, e).coord.consumed <==> id in s.coord.consumed || ConsumedBy(cfg, s, e, id)
  {
    hide OpIdsDistinct, IndexOf, MarkConsumed, Filter, BatchHolds, Pow2, Backoff;
    if s.active.Some? { TheBatch(s.pending, s.active.value.opId, id); }
  }

  /** The only five ways an entry is consumed, each read off the event and the state it meets. */
  lemma ConsumedByIff(cfg: Config, s: Sched, e: Event, id: string)
    requires OpIdsDistinct(s.pending)
    ensures id in Apply(cfg, s, e).coord.consumed <==> id in s.coord.consumed || ConsumedBy(cfg, s, e, id)
  {
    hide OpIdsDistinct, MarkConsumed, BeginRun, FinishRun, DieAccepting, Settled, IdleFires, ExtractNow, BeforeCompact, Usable, FreshRunHolds, VanishesIn;
    match e {
      case RunBegins(entries) => BeginConsumes(cfg, s, entries, id);
      case RunEnds(_, _, _) => EndConsumes(cfg, s, e, id);
      case DiesAccepting(_) => EndConsumes(cfg, s, e, id);
      case Retry(now) => RetryOnlyQueues(s, s.pending, now);
      case _ => if IsTrigger(e) { TriggersConsumePrivatelyOnly(cfg, s, e, id); }
    }
  }

  lemma {:induction false} LastEvent(cfg: Config, s: Sched, events: seq<Event>, e: Event)
    ensures Run(cfg, s, events + [e]) == Apply(cfg, Run(cfg, s, events), e)
    decreases |events|
  {
    hide Apply;
    if events == [] {
      assert [] + [e] == [e];
      assert Run(cfg, s, [e]) == Run(cfg, Apply(cfg, s, e), []);
    } else {
      assert (events + [e])[1..] == events[1..] + [e];
      LastEvent(cfg, Apply(cfg, s, events[0]), events[1..], e);
    }
  }

  lemma ReachedIsDistinct(cfg: Config, events: seq<Event>)
    ensures OpIdsDistinct(Run(cfg, Fresh, events).pending)
  {
    hide Run;
    FreshInv();
    RunKeepsInv(cfg, Fresh, events);
  }

  /** In every run an entry is consumed exactly when one of its events consumed it, for the reason that event gives. */
  lemma {:induction false} ConsumedForAReason(cfg: Config, events: seq<Event>, id: string)
    ensures id in Run(cfg, Fresh, events).coord.consumed <==>
              exists k :: 0 <= k < |events| && ConsumedBy(cfg, Run(cfg, Fresh, events[..k]), events[k], id)
    decreases |events|
  {
    hide ConsumedBy, Apply, OpIdsDistinct;
    if events != [] {
      var init, e := events[..|events| - 1], events[|events| - 1];
      assert init + [e] == events;
      LastEvent(cfg, Fresh, init, e);
      ReachedIsDistinct(cfg, init);
      ConsumedByIff(cfg, Run(cfg, Fresh, init), e, id);
      ConsumedForAReason(cfg, init, id);
      ReasonsOfMore(cfg, init, e, id);
    }
  }

  lemma ReasonsOfMore(cfg: Config, init: seq<Event>, e: Event, id: string)
    ensures var events := init + [e];
            (exists k :: 0 <= k < |events| && ConsumedBy(cfg, Run(cfg, Fresh, events[..k]), events[k], id)) <==>
              (exists k :: 0 <= k < |init| && ConsumedBy(cfg, Run(cfg, Fresh, init[..k]), init[k], id))
              || ConsumedBy(cfg, Run(cfg, Fresh, init), e, id)
  {
    hide ConsumedBy, Run;
    var events := init + [e];
    assert events[|init|] == e && events[..|init|] == init;
    assert forall k :: 0 <= k < |init| ==> events[k] == init[k] && events[..k] == init[..k];
  }

  ghost predicate ShownPrivately(e: Event, id: string) {
    IsTrigger(e) && e.isPrivate && exists x :: x in e.entries && x.id == id
  }

  /** What the scheduler noted as private was shown by an event in private mode. */
  lemma {:induction false} PrivateIdsCameInPrivateMode(cfg: Config, events: seq<Event>, id: string)
    requires id in Run(cfg, Fresh, events).privateIds
    ensures exists k :: 0 <= k < |events| && ShownPrivately(events[k], id)
    decreases |events|
  {
    hide Apply, ShownPrivately;
    if events != [] {
      var init, e := events[..|events| - 1], events[|events| - 1];
      assert init + [e] == events;
      LastEvent(cfg, Fresh, init, e);
      var s := Run(cfg, Fresh, init);
      if id in s.privateIds {
        PrivateIdsCameInPrivateMode(cfg, init, id);
        var k :| 0 <= k < |init| && ShownPrivately(init[k], id);
        assert events[k] == init[k];
      } else {
        NewlyPrivate(cfg, s, e, id);
      }
    }
  }

  lemma NewlyPrivate(cfg: Config, s: Sched, e: Event, id: string)
    requires id in Apply(cfg, s, e).privateIds && id !in s.privateIds
    ensures ShownPrivately(e, id)
  {
    hide Select, MarkConsumed, Fitting, Union, TotalTokens, BeginRun, FinishRun, DieAccepting, Usable;
    if e.RunBegins? {
      BeginKeepsPrivate(cfg, s, e.entries);
    } else if e.RunEnds? || e.DiesAccepting? {
      EndKeepsPrivate(cfg, s, e);
    } else if e.Retry? {
      RetryOnlyQueues(s, s.pending, e.now);
    } else if IsTrigger(e) {
      if !e.isPrivate { OpenTriggersConsumeNothing(cfg, s, e); }
      SelectedIds(cfg, s, e.entries, id);
      SelectedIds(cfg, s.(idleArmed := false), e.entries, id);
    }
  }

  lemma BeginKeepsPrivate(cfg: Config, s: Sched, entries: seq<Entry>)
    ensures BeginRun(cfg, s, entries).privateIds == s.privateIds
  {
    hide Vanished, HeldByRedaction, Filter, MarkConsumed;
  }

  lemma EndKeepsPrivate(cfg: Config, s: Sched, e: Event)
    requires e.RunEnds? || e.DiesAccepting?
    ensures Apply(cfg, s, e).privateIds == s.privateIds
  {
    hide Filter, MarkConsumed, Backoff;
  }

  // ---- what a trigger sets going -----------------------------------------------------------------------

  lemma {:induction false} RetryQueuesDue(s: Sched, batches: seq<Batch>, now: int, opId: nat)
    ensures var t := RetryFrom(s, batches, now);
            t == s.(queue := t.queue)
            && (Runs(t, opId) <==> Runs(s, opId) || exists b :: b in batches && b.opId == opId && DueAt(b, now))
    decreases |batches|
  {
    if batches != [] {
      var init, b := batches[..|batches| - 1], batches[|batches| - 1];
      assert batches == init + [b];
      RetryQueuesDue(s, init, now, opId);
      RetryQueuesDue(s, init, now, b.opId);
    }
  }

  /** Never failed, or out of its cooldown. */
  ghost predicate DueAt(b: Batch, now: int) {
    b.nextAttemptAt == None || b.nextAttemptAt.value <= now
  }

  /** A batch may be added, or there is one to widen. */
  ghost predicate HasRoom(cfg: Config, s: Sched) {
    cfg.maxPendingBatches > 0 || s.pending != []
  }

  /** A batch made of candidates holds the first of them, and is queued or running. */
  lemma CreatedHolds(cfg: Config, s: Sched, candidates: seq<Entry>)
    requires candidates != []
    ensures var t := CreateAndRun(cfg, s, candidates);
            (InABatchThatRuns(t, candidates[0].id) <==> HasRoom(cfg, s)) && t.coord == s.coord && t.idleArmed == s.idleArmed
  {
    var t := CreateAndRun(cfg, s, candidates);
    var ids := BatchOf(cfg, candidates, s.minted).entryIds;
    assert ids[0] == candidates[0].id && ids[0] in ids;
    if !HasRoom(cfg, s) {
      assert t.pending == [];
    } else if |s.pending| >= cfg.maxPendingBatches {
      assert t.pending[0] in t.pending && ids[0] in t.pending[0].entryIds && Runs(t, t.pending[0].opId);
    } else {
      assert t.pending[|s.pending|] in t.pending && ids[0] in t.pending[|s.pending|].entryIds && Runs(t, s.minted);
    }
    hide Union, Fitting;
  }

  /** The first usable entry of the session. */
  ghost predicate FirstUsable(cfg: Config, s: Sched, entries: seq<Entry>, e: Entry) {
    exists i :: 0 <= i < |entries| && entries[i] == e && Usable(cfg, s, e) && forall k :: 0 <= k < i ==> !Usable(cfg, s, entries[k])
  }

  lemma {:induction false} FirstSelected(cfg: Config, s: Sched, entries: seq<Entry>, e: Entry)
    requires FirstUsable(cfg, s, entries, e)
    ensures Select(cfg, s, entries) != [] && Select(cfg, s, entries)[0] == e
    decreases |entries|
  {
    hide Usable;
    var i :| 0 <= i < |entries| && entries[i] == e && Usable(cfg, s, e) && forall k :: 0 <= k < i ==> !Usable(cfg, s, entries[k]);
    EligibleIff(cfg, s, entries[0]);
    if i > 0 {
      assert entries[1..][i - 1] == e;
      FirstSelected(cfg, s, entries[1..], e);
    }
  }

  lemma EligibleIff(cfg: Config, s: Sched, e: Entry)
    ensures Eligible(cfg, s.pending, s.coord.consumed)(e) <==> Usable(cfg, s, e)
  {
    InFlightIs(s.pending, e.id);
    hide InFlight;
  }

  /**
   * A trigger outside private mode takes work on: its first usable entry is in a batch that is queued
   * or running, exactly when there is room for any.
   */
  ghost predicate TakesOn(cfg: Config, s: Sched, t: Sched, e: Entry) {
    (InABatchThatRuns(t, e.id) <==> HasRoom(cfg, s)) && !t.idleArmed
  }

  /**
   * A settled turn outside private mode: due batches are queued again; with an extractor and usable
   * entries at either threshold the first of them is taken on, below both the idle timer is armed and
   * nothing is batched.
   */
  lemma SettledTurn(cfg: Config, s: Sched, entries: seq<Entry>, now: int, e: Entry)
    requires FirstUsable(cfg, s, entries, e)
    ensures var t := Apply(cfg, s, AgentSettled(entries, false, now));
            var usable := Select(cfg, s, entries);
            var enough := TotalTokens(usable) >= cfg.minBatchTokens || |usable| >= cfg.minBatchTurns;
            && (forall b :: b in s.pending && DueAt(b, now) ==> Runs(t, b.opId))
            && (cfg.hasExtractor && enough ==> TakesOn(cfg, s, t, e))
            && (!(cfg.hasExtractor && enough) ==> t.pending == s.pending && (t.idleArmed <==> cfg.hasExtractor))
  {
    hide Select, CreateAndRun, FirstUsable, TotalTokens, InABatchThatRuns, DueAt;
    var cleared := s.(idleArmed := false);
    var retried := RetryFrom(cleared, s.pending, now);
    RetryOnlyQueues(cleared, s.pending, now);
    SameSelection(cfg, s, retried, entries);
    FirstSelected(cfg, s, entries, e);
    CreatedHolds(cfg, retried, Select(cfg, s, entries));
    forall b | b in s.pending && DueAt(b, now) ensures Runs(Apply(cfg, s, AgentSettled(entries, false, now)), b.opId) {
      RetryQueuesDue(cleared, s.pending, now, b.opId);
      CreateKeepsRunning(cfg, retried, Select(cfg, s, entries), b.opId);
    }
  }

  lemma SameSelection(cfg: Config, s: Sched, t: Sched, entries: seq<Entry>)
    requires t.pending == s.pending && t.coord == s.coord
    ensures Select(cfg, t, entries) == Select(cfg, s, entries)
  {
  }

  lemma CreateKeepsRunning(cfg: Config, s: Sched, candidates: seq<Entry>, opId: nat)
    requires Runs(s, opId)
    ensures Runs(CreateAndRun(cfg, s, candidates), opId)
  {
    hide Union, Fitting, Ids;
  }

  /** The idle timer takes on what is there whatever the thresholds, once armed. */
  lemma IdleTakesOn(cfg: Config, s: Sched, entries: seq<Entry>, e: Entry)
    requires FirstUsable(cfg, s, entries, e)
    ensures var t := Apply(cfg, s, Idle(entries, false));
            if s.idleArmed then TakesOn(cfg, s, t, e) else t == s
  {
    hide Select, CreateAndRun, FirstUsable, InABatchThatRuns;
    SameSelection(cfg, s, s.(idleArmed := false), entries);
    FirstSelected(cfg, s, entries, e);
    CreatedHolds(cfg, s.(idleArmed := false), Select(cfg, s, entries));
  }

  /** So does a manual flush with an extractor. */
  lemma ManualTakesOn(cfg: Config, s: Sched, entries: seq<Entry>, e: Entry)
    requires FirstUsable(cfg, s, entries, e)
    ensures var t := Apply(cfg, s, Manual(entries, false));
            if cfg.hasExtractor then TakesOn(cfg, s, t, e) else t == s.(idleArmed := false)
  {
    hide Select, CreateAndRun, FirstUsable, InABatchThatRuns;
    SameSelection(cfg, s, s.(idleArmed := false), entries);
    FirstSelected(cfg, s, entries, e);
    CreatedHolds(cfg, s.(idleArmed := false), Select(cfg, s, entries));
  }

  /** A compaction flush that is not aborted makes a batch of its own, over the limit too. */
  lemma CompactionTakesOn(cfg: Config, s: Sched, entries: seq<Entry>, aborted: bool, e: Entry)
    requires FirstUsable(cfg, s, entries, e)
    ensures var t := Apply(cfg, s, Compact(entries, false, aborted));
            if cfg.hasExtractor && !aborted then
              && |t.pending| == |s.pending| + 1 && t.pending[..|s.pending|] == s.pending
              && e.id in t.pending[|s.pending|].entryIds && Runs(t, t.pending[|s.pending|].opId)
            else t == s
  {
    hide Select, FirstUsable, Fitting;
    FirstSelected(cfg, s, entries, e);
    var ids := BatchOf(cfg, Select(cfg, s, entries), s.minted).entryIds;
    assert ids[0] == e.id && ids[0] in ids;
  }

  /** With nothing usable no trigger batches anything. */
  lemma NothingUsable(cfg: Config, s: Sched, e: Event)
    requires IsTrigger(e) && forall x :: x in e.entries ==> !Usable(cfg, s, x)
    ensures Apply(cfg, s, e).pending == s.pending && Apply(cfg, s, e).minted == s.minted && Apply(cfg, s, e).coord.consumed == s.coord.consumed
  {
    NothingSelected(cfg, s, e.entries);
    var quiet := s.(idleArmed := false);
    SameSelection(cfg, s, quiet, e.entries);
    hide Select, Usable, CreateAndRun;
    if e.AgentSettled? {
      RetryOnlyQueues(quiet, s.pending, e.now);
      SameSelection(cfg, s, RetryFrom(quiet, s.pending, e.now), e.entries);
    }
  }

  lemma NothingSelected(cfg: Config, s: Sched, entries: seq<Entry>)
    requires forall x :: x in entries ==> !Usable(cfg, s, x)
    ensures Select(cfg, s, entries) == []
  {
    hide Usable, Select;
    if Select(cfg, s, entries) != [] {
      SelectIff(cfg, s, entries, Select(cfg, s, entries)[0]);
    }
  }

  // ---- a run, begun and failed --------------------------------------------------------------------------

  /** Every entry of the batch that is still there may be sent. */
  ghost predicate MayBeSent(cfg: Config, entries: seq<Entry>, ids: seq<string>) {
    forall x :: x in entries && x.id in ids ==> cfg.redactable(x.text)
  }

  ghost predicate DistinctEntries(entries: seq<Entry>) {
    forall i, k :: 0 <= i < k < |entries| ==> entries[i].id != entries[k].id
  }

  lemma {:induction false} TextOfOnly(entries: seq<Entry>, x: Entry)
    requires DistinctEntries(entries) && x in entries
    ensures TextOf(entries, x.id) == Some(x.text)
  {
    var init, last := entries[..|entries| - 1], entries[|entries| - 1];
    assert entries == init + [last];
    if x != last { TextOfOnly(init, x); }
  }

  lemma HeldIff(cfg: Config, entries: seq<Entry>, ids: seq<string>)
    requires DistinctEntries(entries)
    ensures HeldByRedaction(cfg, entries, ids) <==> !MayBeSent(cfg, entries, ids)
  {
    hide TextOf, DistinctEntries;
    if HeldByRedaction(cfg, entries, ids) {
      var id :| id in ids && TextOf(entries, id).Some? && !cfg.redactable(TextOf(entries, id).value);
      TextOfIff(entries, id);
      var x :| x in entries && x.id == id;
      TextOfOnly(entries, x);
    }
    if x :| x in entries && x.id in ids && !cfg.redactable(x.text) {
      TextOfOnly(entries, x);
      assert x.id in ids && TextOf(entries, x.id).Some? && !cfg.redactable(TextOf(entries, x.id).value);
    }
  }

  /**
   * The next run in the queue reaches the model exactly when its batch is pending, some entry of it is
   * still in the session, there is an extractor, and the redactor can handle every entry that is there.
   * Only a batch whose entries are all gone is closed.
   */
  lemma RunReachesTheModelIff(cfg: Config, s: Sched, entries: seq<Entry>)
    requires OpIdsDistinct(s.pending) && DistinctEntries(entries) && s.active.None? && s.queue != []
    ensures var t := Apply(cfg, s, RunBegins(entries));
            && t.queue == s.queue[1..] && t.jobs == s.jobs
            && (t.active.Some? <==>
                  cfg.hasExtractor && exists b :: b in s.pending && b.opId == s.queue[0]
                                                  && !Gone(entries, b.entryIds) && MayBeSent(cfg, entries, b.entryIds))
            && (t.active.Some? ==> t.active.value == Active(s.queue[0], s.coord.generation))
            && (forall c :: c in t.pending <==> c in s.pending && !(c.opId == s.queue[0] && Gone(entries, c.entryIds)))
  {
    assert forall c :: c in Filter(s.pending, OtherThan(s.queue[0])) <==> c in s.pending && c.opId != s.queue[0];
    hide OpIdsDistinct, DistinctEntries, IndexOf, Vanished, HeldByRedaction, Filter, MarkConsumed, Gone, MayBeSent;
    var k := IndexOf(s.pending, s.queue[0]);
    if k.Some? {
      var b := s.pending[k.value];
      assert b in s.pending;
      VanishedIff(entries, b.entryIds);
      HeldIff(cfg, entries, b.entryIds);
      forall c | c in s.pending && c.opId == s.queue[0] ensures c == b {
        OnlyBatchOf(s.pending, k.value, c);
      }
    }
  }

  function Doubled(base: int, n: nat): int {
    if n == 0 then base else 2 * Doubled(base, n - 1)
  }

  lemma {:induction false} DoubledIs(base: int, n: nat)
    ensures base * Pow2(n) == Doubled(base, n)
  {
    if n > 0 {
      DoubledIs(base, n - 1);
      assert base * (2 * Pow2(n - 1)) == 2 * (base * Pow2(n - 1));
    }
  }

  /**
   * A failed run consumes nothing and makes no job: its batch stays, one attempt on, and cools down for
   * the base time doubled with every earlier failure, at most sixteen times and under the cap.
   */
  lemma FailureCoolsDown(cfg: Config, s: Sched, enqueued: bool, now: int, k: nat)
    requires OpIdsDistinct(s.pending) && s.active.Some? && k < |s.pending| && s.pending[k].opId == s.active.value.opId
    ensures var t, b := Apply(cfg, s, RunEnds(ModelFailed, enqueued, now)), s.pending[k];
            && t.jobs == s.jobs && t.coord == s.coord && t.active.None? && t.queue == s.queue
            && t.pending == s.pending[k := b.(attempts := b.attempts + 1,
                 nextAttemptAt := Some(now + Min(cfg.retryCapMs, Doubled(cfg.retryBaseMs, Min(b.attempts, 16)))))]
  {
    hide OpIdsDistinct, IndexOf, Pow2, Doubled;
    var n := IndexOf(s.pending, s.active.value.opId);
    assert s.pending[k] in s.pending;
    SamePlace(s.pending, n.value, k);
    DoubledIs(cfg.retryBaseMs, Min(s.pending[k].attempts, 16));
  }

  lemma SamePlace(pending: seq<Batch>, i: nat, k: nat)
    requires OpIdsDistinct(pending) && i < |pending| && k < |pending| && pending[i].opId == pending[k].opId
    ensures i == k
  {
  }
}
