/**
 * The observer scheduler: batches of source entries, run one at a time, each becoming one durable
 * job. The functions say what every trigger and every moment of a run does to the state; class
 * `ObserverScheduler` is the scheduler in its own form, proved against them.
 */
module Scheduler {
  import opened Common
  import opened Coordinator

  datatype Entry = Entry(id: string, text: string)

  datatype Config = Config(
    blank: string -> bool,
    excluded: string -> bool,
    redactable: string -> bool,
    hasExtractor: bool,
    minBatchTokens: int,
    minBatchTurns: int,
    inputBudgetTokens: int,
    maxPendingBatches: nat,
    retryBaseMs: int,
    retryCapMs: int)

  datatype Batch = Batch(opId: nat, entryIds: seq<string>, attempts: nat, nextAttemptAt: Option<int>)

  datatype Job = Job(opId: nat, sourceEntryIds: seq<string>)

  /** The run past its model call; results of an older generation are discarded. */
  datatype Active = Active(opId: nat, generation: nat)

  /**
   * `queue` is the chain of runs waiting, `minted` the number of opIds handed out. The last four
   * fields are history: the durable jobs, and why entries were consumed without one.
   */
  datatype Sched = Sched(
    pending: seq<Batch>,
    queue: seq<nat>,
    active: Option<Active>,
    idleArmed: bool,
    coord: Coord,
    minted: nat,
    jobs: seq<Job>,
    privateIds: set<string>,
    vanishedIds: set<string>,
    treeIds: set<string>)

  const Fresh: Sched := Sched([], [], None, false, NewCoord, 0, [], {}, {}, {})

  // ---- selection ------------------------------------------------------------------

  function EstimateTokens(text: string): nat {
    Max(1, (|text| + 3) / 4)
  }

  function Ids(es: seq<Entry>): (ids: seq<string>)
    ensures |ids| == |es| && forall i :: 0 <= i < |es| ==> ids[i] == es[i].id
  {
    seq(|es|, i requires 0 <= i < |es| => es[i].id)
  }

  function InFlight(pending: seq<Batch>): set<string> {
    set b, id | b in pending && id in b.entryIds :: id
  }

  function Eligible(cfg: Config, pending: seq<Batch>, consumed: seq<string>): Entry -> bool {
    (e: Entry) => !cfg.blank(e.text) && e.id !in consumed && e.id !in InFlight(pending) && !cfg.excluded(e.text)
  }

  function Select(cfg: Config, s: Sched, entries: seq<Entry>): seq<Entry> {
    Filter(entries, Eligible(cfg, s.pending, s.coord.consumed))
  }

  function TotalTokens(es: seq<Entry>): nat {
    if es == [] then 0 else TotalTokens(es[..|es| - 1]) + EstimateTokens(es[|es| - 1].text)
  }

  /** How many candidates fit the input budget, always at least one. */
  function Fitting(cfg: Config, candidates: seq<Entry>, i: nat, tokens: nat): (n: nat)
    requires i <= |candidates|
    ensures i <= n <= |candidates| && (candidates != [] ==> n > 0)
    decreases |candidates| - i
  {
    if i == |candidates| then i
    else
      var t := EstimateTokens(candidates[i].text);
      if i > 0 && tokens + t > cfg.inputBudgetTokens then i else Fitting(cfg, candidates, i + 1, tokens + t)
  }

  function BatchOf(cfg: Config, candidates: seq<Entry>, opId: nat): Batch {
    Batch(opId, Ids(candidates[..Fitting(cfg, candidates, 0, 0)]), 0, None)
  }

  // ---- batches and runs --------------------------------------------------------------

  function IndexOf(pending: seq<Batch>, opId: nat): (r: Option<nat>)
    ensures r.Some? ==> r.value < |pending| && pending[r.value].opId == opId
    ensures r.None? ==> forall b :: b in pending ==> b.opId != opId
  {
    if pending == [] then None
    else if pending[0].opId == opId then Some(0)
    else
      match IndexOf(pending[1..], opId)
      case None => None
      case Some(k) => Some(k + 1)
  }

  function OtherThan(opId: nat): Batch -> bool {
    (b: Batch) => b.opId != opId
  }

  /** Union in order of first appearance. */
  function Union(a: seq<string>, b: seq<string>): (r: seq<string>)
    ensures forall id :: id in r <==> id in a || id in b
  {
    MarkConsumed(MarkConsumed([], a), b)
  }

  predicate Running(s: Sched, opId: nat) {
    opId in s.queue || (s.active.Some? && s.active.value.opId == opId)
  }

  /** Single flight per opId: a batch queued or running is not queued again. */
  function EnqueueRun(s: Sched, opId: nat): Sched {
    if Running(s, opId) then s else s.(queue := s.queue + [opId])
  }

  function Push(s: Sched, batch: Batch): Sched {
    EnqueueRun(s.(pending := s.pending + [batch], minted := s.minted + 1), batch.opId)
  }

  /** Over the limit the new entries join the oldest batch, under its opId. */
  function Merge(s: Sched, batch: Batch): Sched {
    if s.pending == [] then s.(minted := s.minted + 1)
    else
      var oldest := s.pending[0];
      var merged := s.pending[0 := oldest.(entryIds := Union(oldest.entryIds, batch.entryIds))];
      EnqueueRun(s.(pending := merged, minted := s.minted + 1), oldest.opId)
  }

  function CreateAndRun(cfg: Config, s: Sched, candidates: seq<Entry>): Sched {
    var batch := BatchOf(cfg, candidates, s.minted);
    if |s.pending| >= cfg.maxPendingBatches then Merge(s, batch) else Push(s, batch)
  }

  function Due(b: Batch, now: int): bool {
    b.nextAttemptAt.None? || b.nextAttemptAt.value <= now
  }

  /** Crash recovery and retry: every due batch, in order. */
  function RetryFrom(s: Sched, batches: seq<Batch>, now: int): Sched {
    if batches == [] then s
    else
      var before, b := RetryFrom(s, batches[..|batches| - 1], now), batches[|batches| - 1];
      if Due(b, now) then EnqueueRun(before, b.opId) else before
  }

  function Consume(s: Sched, ids: seq<string>): Sched {
    s.(coord := s.coord.(consumed := MarkConsumed(s.coord.consumed, ids)))
  }

  function SetOf(ids: seq<string>): set<string> {
    set id | id in ids :: id
  }

  /** Entries seen while private are consumed without extraction. */
  function ClassifyPrivate(cfg: Config, s: Sched, entries: seq<Entry>): Sched {
    var ids := Ids(Select(cfg, s, entries));
    Consume(s, ids).(privateIds := s.privateIds + SetOf(ids))
  }

  // ---- triggers ------------------------------------------------------------------------

  function Settled(cfg: Config, s: Sched, entries: seq<Entry>, isPrivate: bool, now: int): Sched {
    var cleared := s.(idleArmed := false);
    if isPrivate then ClassifyPrivate(cfg, cleared, entries)
    else
      var retried := RetryFrom(cleared, s.pending, now);
      var candidates := Select(cfg, retried, entries);
      if !cfg.hasExtractor || candidates == [] then retried
      else if TotalTokens(candidates) < cfg.minBatchTokens && |candidates| < cfg.minBatchTurns then retried.(idleArmed := true)
      else CreateAndRun(cfg, retried, candidates)
  }

  function IdleFires(cfg: Config, s: Sched, entries: seq<Entry>, isPrivate: bool): Sched {
    if !s.idleArmed then s
    else
      var fired := s.(idleArmed := false);
      if isPrivate then ClassifyPrivate(cfg, fired, entries)
      else
        var candidates := Select(cfg, fired, entries);
        if candidates == [] then fired else CreateAndRun(cfg, fired, candidates)
  }

  function ExtractNow(cfg: Config, s: Sched, entries: seq<Entry>, isPrivate: bool): Sched {
    var cleared := s.(idleArmed := false);
    var candidates := Select(cfg, cleared, entries);
    if isPrivate || candidates == [] || !cfg.hasExtractor then cleared else CreateAndRun(cfg, cleared, candidates)
  }

  /** The flush before a compaction is always a batch of its own. */
  function BeforeCompact(cfg: Config, s: Sched, entries: seq<Entry>, isPrivate: bool, aborted: bool): Sched {
    var candidates := Select(cfg, s, entries);
    if isPrivate then ClassifyPrivate(cfg, s, entries)
    else if candidates == [] || !cfg.hasExtractor || aborted then s
    else Push(s, BatchOf(cfg, candidates, s.minted))
  }

  // ---- a run ------------------------------------------------------------------------------

  function TextOf(entries: seq<Entry>, id: string): Option<string> {
    if entries == [] then None
    else if entries[|entries| - 1].id == id then Some(entries[|entries| - 1].text)
    else TextOf(entries[..|entries| - 1], id)
  }

  predicate Vanished(entries: seq<Entry>, ids: seq<string>) {
    forall id :: id in ids ==> TextOf(entries, id).None?
  }

  predicate HeldByRedaction(cfg: Config, entries: seq<Entry>, ids: seq<string>) {
    exists id :: id in ids && TextOf(entries, id).Some? && !cfg.redactable(TextOf(entries, id).value)
  }

  /** Up to the model call: a batch whose entries are gone is closed, a batch that may not be sent is held. */
  function BeginRun(cfg: Config, s: Sched, entries: seq<Entry>): Sched {
    if s.active.Some? || s.queue == [] then s
    else
      var opId, rest := s.queue[0], s.(queue := s.queue[1..]);
      match IndexOf(s.pending, opId)
      case None => rest
      case Some(k) =>
        var ids := s.pending[k].entryIds;
        if Vanished(entries, ids) then
          Consume(rest, ids).(pending := Filter(s.pending, OtherThan(opId)), vanishedIds := s.vanishedIds + SetOf(ids))
        else if !cfg.hasExtractor || HeldByRedaction(cfg, entries, ids) then rest
        else rest.(active := Some(Active(opId, s.coord.generation)))
  }

  function Pow2(n: nat): nat {
    if n == 0 then 1 else 2 * Pow2(n - 1)
  }

  function Backoff(cfg: Config, attempts: nat): int
    requires attempts > 0
  {
    Min(cfg.retryCapMs, cfg.retryBaseMs * Pow2(Min(attempts - 1, 16)))
  }

  datatype Reply = ModelFailed | ModelAnswered

  /** After the model call: a failure cools down, a stale result is dropped, a fresh one becomes the job. */
  function FinishRun(cfg: Config, s: Sched, reply: Reply, enqueued: bool, now: int): Sched {
    if s.active.None? then s
    else
      var run, done := s.active.value, s.(active := None);
      match IndexOf(s.pending, run.opId)
      case None => done
      case Some(k) =>
        var b := s.pending[k];
        if reply.ModelFailed? then
          done.(pending := s.pending[k := b.(attempts := b.attempts + 1, nextAttemptAt := Some(now + Backoff(cfg, b.attempts + 1)))])
        else if run.generation != s.coord.generation || !enqueued then done
        else
          Consume(done, b.entryIds).(pending := Filter(s.pending, OtherThan(run.opId)), jobs := s.jobs + [Job(run.opId, b.entryIds)])
  }

  // ---- the scheduler, in its own form ----------------------------------------------------------

  class ObserverScheduler {
    const cfg: Config
    const coordinator: SessionCoordinator
    var pending: seq<Batch>
    var queue: seq<nat>
    var active: Option<Active>
    var idleArmed: bool
    var minted: nat
    var jobs: seq<Job>
    ghost var privateIds: set<string>
    ghost var vanishedIds: set<string>
    ghost var treeIds: set<string>

    ghost function Value(): Sched
      reads this, coordinator
    {
      Sched(pending, queue, active, idleArmed, coordinator.Value(), minted, jobs, privateIds, vanishedIds, treeIds)
    }

    constructor (cfg: Config, coordinator: SessionCoordinator)
      ensures this.cfg == cfg && this.coordinator == coordinator
      ensures Value() == Fresh.(coord := coordinator.Value())
    {
      this.cfg, this.coordinator := cfg, coordinator;
      pending, queue, active, idleArmed, minted, jobs := [], [], None, false, 0, [];
      privateIds, vanishedIds, treeIds := {}, {}, {};
    }

    method SelectUnprocessed(entries: seq<Entry>) returns (candidates: seq<Entry>)
      ensures candidates == Select(cfg, Value(), entries)
    {
      hide Filter;
      var inFlight := InFlight(pending);
      candidates := [];
      ghost var keep := Eligible(cfg, pending, coordinator.consumed);
      assert entries[0..] == entries;
      for i := 0 to |entries|
        invariant candidates + Filter(entries[i..], keep) == Filter(entries, keep)
      {
        FilterAt(entries, keep, i);
        var e := entries[i];
        if !cfg.blank(e.text) && e.id !in coordinator.consumed && e.id !in inFlight && !cfg.excluded(e.text) {
          candidates := candidates + [e];
        }
      }
      assert entries[|entries|..] == [];
    }

    method BuildBatch(candidates: seq<Entry>) returns (batch: Batch)
      modifies this`minted
      ensures batch == BatchOf(cfg, candidates, old(minted)) && minted == old(minted) + 1
    {
      var ids: seq<string> := [];
      var tokens: nat := 0;
      var i := 0;
      while i < |candidates|
        invariant 0 <= i <= |candidates| && ids == Ids(candidates[..i])
        invariant Fitting(cfg, candidates, i, tokens) == Fitting(cfg, candidates, 0, 0)
      {
        var t := EstimateTokens(candidates[i].text);
        if |ids| > 0 && tokens + t > cfg.inputBudgetTokens { break; }
        ids := ids + [candidates[i].id];
        tokens := tokens + t;
        i := i + 1;
      }
      batch := Batch(minted, ids, 0, None);
      minted := minted + 1;
    }

    method QueueRun(opId: nat)
      modifies this`queue
      ensures Value() == EnqueueRun(old(Value()), opId)
    {
      if opId in queue || (active.Some? && active.value.opId == opId) { return; }
      queue := queue + [opId];
    }

    method MergeIntoOldest(batch: Batch)
      requires pending != []
      modifies this`pending
      ensures pending == old(pending)[0 := old(pending)[0].(entryIds := Union(old(pending)[0].entryIds, batch.entryIds))]
    {
      var oldest := pending[0];
      pending := pending[0 := oldest.(entryIds := Union(oldest.entryIds, batch.entryIds))];
    }

    method Create(candidates: seq<Entry>)
      modifies this
      ensures Value() == CreateAndRun(cfg, old(Value()), candidates)
    {
      hide Union, Fitting;
      var batch := BuildBatch(candidates);
      if |pending| >= cfg.maxPendingBatches {
        if |pending| > 0 {
          MergeIntoOldest(batch);
          QueueRun(pending[0].opId);
        }
      } else {
        pending := pending + [batch];
        QueueRun(batch.opId);
      }
    }

    method RetryPending(now: int)
      modifies this`queue
      ensures Value() == RetryFrom(old(Value()), pending, now)
    {
      for i := 0 to |pending|
        invariant Value() == RetryFrom(old(Value()), pending[..i], now)
      {
        assert pending[..i + 1][..i] == pending[..i];
        var b := pending[i];
        if b.nextAttemptAt.None? || b.nextAttemptAt.value <= now { QueueRun(b.opId); }
      }
      assert pending[..|pending|] == pending;
    }

    method ClassifyPrivateSession(entries: seq<Entry>)
      modifies this, coordinator
      ensures Value() == ClassifyPrivate(cfg, old(Value()), entries)
    {
      var candidates := SelectUnprocessed(entries);
      hide Select;
      coordinator.Consume(Ids(candidates));
      privateIds := privateIds + SetOf(Ids(candidates));
    }

    method Tokens(es: seq<Entry>) returns (n: nat)
      ensures n == TotalTokens(es)
    {
      n := 0;
      for i := 0 to |es|
        invariant n == TotalTokens(es[..i])
      {
        assert es[..i + 1][..i] == es[..i];
        n := n + EstimateTokens(es[i].text);
      }
      assert es[..|es|] == es;
    }

    method OnAgentSettled(entries: seq<Entry>, isPrivate: bool, now: int)
      modifies this, coordinator
      ensures Value() == Settled(cfg, old(Value()), entries, isPrivate, now)
    {
      hide Select, RetryFrom, CreateAndRun, ClassifyPrivate;
      idleArmed := false;
      if isPrivate {
        ClassifyPrivateSession(entries);
        return;
      }
      RetryPending(now);
      if !cfg.hasExtractor { return; }
      var candidates := SelectUnprocessed(entries);
      if |candidates| == 0 { return; }
      var tokens := Tokens(candidates);
      if tokens < cfg.minBatchTokens && |candidates| < cfg.minBatchTurns {
        idleArmed := true;
        return;
      }
      Create(candidates);
    }

    method OnIdle(entries: seq<Entry>, isPrivate: bool)
      modifies this, coordinator
      ensures Value() == IdleFires(cfg, old(Value()), entries, isPrivate)
    {
      hide Select, CreateAndRun, ClassifyPrivate;
      if !idleArmed { return; }
      idleArmed := false;
      if isPrivate {
        ClassifyPrivateSession(entries);
        return;
      }
      var candidates := SelectUnprocessed(entries);
      if |candidates| > 0 { Create(candidates); }
    }

    method Extract(entries: seq<Entry>, isPrivate: bool)
      modifies this
      ensures Value() == ExtractNow(cfg, old(Value()), entries, isPrivate)
    {
      hide Select, CreateAndRun;
      idleArmed := false;
      if isPrivate { return; }
      var candidates := SelectUnprocessed(entries);
      if |candidates| == 0 || !cfg.hasExtractor { return; }
      Create(candidates);
    }

    method OnBeforeCompact(entries: seq<Entry>, isPrivate: bool, aborted: bool)
      modifies this, coordinator
      ensures Value() == BeforeCompact(cfg, old(Value()), entries, isPrivate, aborted)
    {
      hide Select, Fitting, ClassifyPrivate;
      if isPrivate {
        ClassifyPrivateSession(entries);
        return;
      }
      var candidates := SelectUnprocessed(entries);
      if |candidates| == 0 || !cfg.hasExtractor || aborted { return; }
      var batch := BuildBatch(candidates);
      pending := pending + [batch];
      QueueRun(batch.opId);
    }

    method StartRun(entries: seq<Entry>)
      modifies this, coordinator
      ensures Value() == BeginRun(cfg, old(Value()), entries)
    {
      hide Filter, Vanished, HeldByRedaction, MarkConsumed;
      if active.Some? || |queue| == 0 { return; }
      var opId := queue[0];
      queue := queue[1..];
      var k := IndexOf(pending, opId);
      if k.None? { return; }
      var ids := pending[k.value].entryIds;
      if Vanished(entries, ids) {
        coordinator.Consume(ids);
        pending := Filter(pending, OtherThan(opId));
        vanishedIds := vanishedIds + SetOf(ids);
        return;
      }
      if !cfg.hasExtractor { return; }
      if HeldByRedaction(cfg, entries, ids) { return; }
      active := Some(Active(opId, coordinator.generation));
    }

    method NoteExtractionFailure(k: nat, now: int)
      requires k < |pending|
      modifies this`pending
      ensures var b := old(pending)[k];
              pending == old(pending)[k := b.(attempts := b.attempts + 1, nextAttemptAt := Some(now + Backoff(cfg, b.attempts + 1)))]
    {
      var b := pending[k];
      b := b.(attempts := b.attempts + 1);
      b := b.(nextAttemptAt := Some(now + Backoff(cfg, b.attempts)));
      pending := pending[k := b];
    }

    method EndRun(reply: Reply, enqueued: bool, now: int)
      modifies this, coordinator
      ensures Value() == FinishRun(cfg, old(Value()), reply, enqueued, now)
    {
      hide Filter, MarkConsumed, Pow2;
      if active.None? { return; }
      var run := active.value;
      active := None;
      var k := IndexOf(pending, run.opId);
      if k.None? { return; }
      if reply.ModelFailed? {
        NoteExtractionFailure(k.value, now);
        return;
      }
      if run.generation != coordinator.generation { return; }
      var ids := pending[k.value].entryIds;
      if !enqueued { return; }
      jobs := jobs + [Job(run.opId, ids)];
      coordinator.Consume(ids);
      pending := Filter(pending, OtherThan(run.opId));
    }
  }
}
