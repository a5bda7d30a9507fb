/**
 * The scheduler over whole runs: any interleaving of triggers, retries, model replies, failures,
 * navigations and crashes, inside acceptance included.
 */
module SchedulerSafety {
  import opened Common
  import opened Coordinator
  import opened Scheduler

  datatype Event =
    | AgentSettled(entries: seq<Entry>, isPrivate: bool, now: int)
    | Idle(entries: seq<Entry>, isPrivate: bool)
    | Manual(entries: seq<Entry>, isPrivate: bool)
    | Compact(entries: seq<Entry>, isPrivate: bool, aborted: bool)
    | Retry(now: int)
    | RunBegins(entries: seq<Entry>)
    | RunEnds(reply: Reply, enqueued: bool, now: int)
    | DiesAccepting(marked: bool)
    | StartSession(session: Option<string>, leaf: Option<string>)
    | TreeAnnounced(ids: seq<string>, aborted: bool)
    | TreeDone(session: Option<string>, oldLeaf: Option<string>, newLeaf: Option<string>, leaf: Option<string>)
    | ShutDown
    | Crash

  /** What a crash leaves: the batch file, the consumed registry, the outbox. */
  function Restarted(s: Sched): Sched {
    s.(queue := [], active := None, idleArmed := false, coord := Reloaded(s.coord))
  }

  /** The batch whose fresh result the active run would turn into a job. */
  function Acceptable(s: Sched): Option<nat> {
    if s.active.Some? && s.active.value.generation == s.coord.generation then IndexOf(s.pending, s.active.value.opId)
    else None
  }

  /**
   * The process dies behind the durable enqueue of a result and before the batch file is rewritten;
   * the entries were marked consumed by then, or not.
   */
  function DieAccepting(s: Sched, marked: bool): Sched {
    match Acceptable(s)
    case None => s
    case Some(k) =>
      var b := s.pending[k];
      var queued := s.(jobs := s.jobs + [Job(b.opId, b.entryIds)]);
      Restarted(if marked then Consume(queued, b.entryIds) else queued)
  }

  function Apply(cfg: Config, s: Sched, e: Event): Sched {
    match e
    case AgentSettled(entries, isPrivate, now) => Settled(cfg, s, entries, isPrivate, now)
    case Idle(entries, isPrivate) => IdleFires(cfg, s, entries, isPrivate)
    case Manual(entries, isPrivate) => ExtractNow(cfg, s, entries, isPrivate)
    case Compact(entries, isPrivate, aborted) => BeforeCompact(cfg, s, entries, isPrivate, aborted)
    case Retry(now) => RetryFrom(s, s.pending, now)
    case RunBegins(entries) => BeginRun(cfg, s, entries)
    case RunEnds(reply, enqueued, now) => FinishRun(cfg, s, reply, enqueued, now)
    case DiesAccepting(marked) => DieAccepting(s, marked)
    case StartSession(session, leaf) => s.(coord := SessionStart(s.coord, session, leaf))
    case TreeAnnounced(ids, aborted) => s.(coord := BeforeTree(s.coord, ids, aborted))
    case TreeDone(session, oldLeaf, newLeaf, leaf) =>
      var after := Tree(s.coord, session, oldLeaf, newLeaf, leaf);
      s.(coord := after, treeIds := if s.coord.active then s.treeIds + SetOf(s.coord.stash) else s.treeIds)
    case ShutDown => s.(coord := Shutdown(s.coord))
    case Crash => Restarted(s)
  }

  function Run(cfg: Config, s: Sched, events: seq<Event>): Sched
    decreases |events|
  {
    if events == [] then s else Run(cfg, Apply(cfg, s, events[0]), events[1..])
  }

  // ---- the invariant -----------------------------------------------------------------

  ghost predicate Apart(a: seq<string>, b: seq<string>) {
    forall id :: id in a ==> id !in b
  }

  ghost predicate BatchesApart(pending: seq<Batch>) {
    forall i, j :: 0 <= i < j < |pending| ==> Apart(pending[i].entryIds, pending[j].entryIds)
  }

  ghost predicate OpIdsDistinct(pending: seq<Batch>) {
    forall i, j :: 0 <= i < j < |pending| ==> pending[i].opId != pending[j].opId
  }

  ghost predicate Among(a: seq<string>, b: seq<string>) {
    forall id :: id in a ==> id in b
  }

  /** What an older use of an opId may share with a newer one: everything, or nothing at all. */
  ghost predicate Follows(opId: nat, ids: seq<string>, laterOp: nat, laterIds: seq<string>) {
    if opId == laterOp then Among(ids, laterIds) else Apart(ids, laterIds)
  }

  ghost predicate JobsApart(jobs: seq<Job>) {
    forall i, j :: 0 <= i < j < |jobs| ==>
      Follows(jobs[i].opId, jobs[i].sourceEntryIds, jobs[j].opId, jobs[j].sourceEntryIds)
  }

  ghost predicate JobsVersusBatches(jobs: seq<Job>, pending: seq<Batch>) {
    forall j, b :: j in jobs && b in pending ==> Follows(j.opId, j.sourceEntryIds, b.opId, b.entryIds)
  }

  ghost predicate Minted(s: Sched) {
    && (forall b :: b in s.pending ==> b.opId < s.minted)
    && (forall j :: j in s.jobs ==> j.opId < s.minted)
  }

  ghost predicate HasBatch(pending: seq<Batch>, opId: nat) {
    exists b :: b in pending && b.opId == opId
  }

  /** Every run waiting or active has its batch, and no batch has two runs. */
  ghost predicate RunsOk(s: Sched) {
    && (forall i, j :: 0 <= i < j < |s.queue| ==> s.queue[i] != s.queue[j])
    && (s.active.Some? ==> s.active.value.opId !in s.queue && HasBatch(s.pending, s.active.value.opId))
    && (forall op :: op in s.queue ==> HasBatch(s.pending, op))
  }

  /** What a job names is consumed, or still in the batch it came from. */
  ghost predicate JobsConsumed(s: Sched) {
    forall j, id :: j in s.jobs && id in j.sourceEntryIds ==> id in s.coord.consumed || HasBatch(s.pending, j.opId)
  }

  ghost predicate NamedByJob(jobs: seq<Job>, id: string) {
    exists j :: j in jobs && id in j.sourceEntryIds
  }

  ghost predicate Explained(s: Sched) {
    forall id :: id in s.coord.consumed ==>
      NamedByJob(s.jobs, id) || id in s.privateIds || id in s.vanishedIds || id in s.treeIds
  }

  ghost predicate ReasonsHold(s: Sched) {
    forall id :: id in s.privateIds || id in s.vanishedIds || id in s.treeIds ==> id in s.coord.consumed
  }

  ghost predicate Inv(s: Sched) {
    && BatchesApart(s.pending) && OpIdsDistinct(s.pending)
    && JobsApart(s.jobs) && JobsVersusBatches(s.jobs, s.pending)
    && Minted(s) && RunsOk(s) && JobsConsumed(s) && Explained(s) && ReasonsHold(s)
  }

  // ---- pieces ------------------------------------------------------------------------------

  /** Fresh entries are in no batch and in no job. */
  ghost predicate Untouched(s: Sched, ids: seq<string>) {
    && (forall b :: b in s.pending ==> Apart(ids, b.entryIds))
    && (forall j :: j in s.jobs ==> Apart(ids, j.sourceEntryIds))
  }

  lemma SelectedAreUntouched(cfg: Config, s: Sched, entries: seq<Entry>)
    requires JobsConsumed(s) && JobsVersusBatches(s.jobs, s.pending)
    ensures Untouched(s, Ids(Select(cfg, s, entries)))
  {
    var chosen := Select(cfg, s, entries);
    var ids := Ids(chosen);
    forall id | id in ids ensures id !in s.coord.consumed && id !in InFlight(s.pending) {
      var i :| 0 <= i < |ids| && ids[i] == id;
      assert chosen[i] in chosen;
    }
    hide Select, Ids;
    forall b | b in s.pending ensures Apart(ids, b.entryIds) {
      forall id | id in ids ensures id !in b.entryIds {
      }
    }
    forall j | j in s.jobs ensures Apart(ids, j.sourceEntryIds) {
      forall id | id in j.sourceEntryIds ensures id !in ids {
        if id !in s.coord.consumed {
          var b :| b in s.pending && b.opId == j.opId;
          assert Follows(j.opId, j.sourceEntryIds, b.opId, b.entryIds);
        }
      }
    }
  }

  lemma BatchIsUntouched(cfg: Config, s: Sched, candidates: seq<Entry>, opId: nat)
    requires Untouched(s, Ids(candidates))
    ensures Untouched(s, BatchOf(cfg, candidates, opId).entryIds)
  {
    var ids := BatchOf(cfg, candidates, opId).entryIds;
    var n := Fitting(cfg, candidates, 0, 0);
    forall id | id in ids ensures id in Ids(candidates) {
      var i :| 0 <= i < |ids| && ids[i] == id;
      assert Ids(candidates)[i] == id;
    }
    hide Ids, Fitting, BatchOf;
  }

  lemma QueueKeepsInv(s: Sched, opId: nat)
    requires Inv(s) && HasBatch(s.pending, opId)
    ensures Inv(EnqueueRun(s, opId))
  {
    hide BatchesApart, OpIdsDistinct, JobsApart, JobsVersusBatches, HasBatch;
  }

  lemma PushKeepsInv(s: Sched, ids: seq<string>)
    requires Inv(s) && Untouched(s, ids)
    ensures Inv(Push(s, Batch(s.minted, ids, 0, None)))
  {
    var b := Batch(s.minted, ids, 0, None);
    var s1 := s.(pending := s.pending + [b], minted := s.minted + 1);
    hide BatchesApart, OpIdsDistinct, JobsApart, JobsVersusBatches, HasBatch, RunsOk;
    QueueKeepsInv(s1, b.opId);
  }

  /** The oldest batch takes the new entries; the others, and the jobs, never had them. */
  lemma MergeKeepsInv(s: Sched, b: Batch)
    requires Inv(s) && Untouched(s, b.entryIds)
    ensures Inv(Merge(s, b))
  {
    hide OpIdsDistinct, JobsApart, JobsVersusBatches, RunsOk, Union, HasBatch, BatchesApart, Apart;
    if s.pending != [] {
      var oldest := s.pending[0];
      var wide := oldest.(entryIds := Union(oldest.entryIds, b.entryIds));
      var merged := s.pending[0 := wide];
      var s1 := s.(pending := merged, minted := s.minted + 1);
      ReplacedRuns(s, s1, 0, wide);
      assert oldest in s.pending && merged[0] == wide && wide in merged;
      forall c | c in merged ensures c.opId < s.minted {
        if c != wide { assert c in s.pending; }
      }
      WideFollows(s.jobs, s.pending, b);
      WideApart(s, b);
      QueueKeepsInv(s1, oldest.opId);
    } else {
      MintKeepsInv(s);
    }
  }

  lemma MintKeepsInv(s: Sched)
    requires Inv(s)
    ensures Inv(s.(minted := s.minted + 1))
  {
    hide BatchesApart, OpIdsDistinct, JobsApart, JobsVersusBatches, HasBatch;
  }

  lemma WideApart(s: Sched, b: Batch)
    requires s.pending != [] && BatchesApart(s.pending) && OpIdsDistinct(s.pending) && Untouched(s, b.entryIds)
    ensures var wide := s.pending[0].(entryIds := Union(s.pending[0].entryIds, b.entryIds));
            var merged := s.pending[0 := wide];
            BatchesApart(merged) && OpIdsDistinct(merged)
  {
    hide Union;
    forall i | 0 < i < |s.pending| ensures Apart(b.entryIds, s.pending[i].entryIds) {
      assert s.pending[i] in s.pending;
    }
  }

  lemma WideFollows(jobs: seq<Job>, pending: seq<Batch>, b: Batch)
    requires pending != [] && JobsVersusBatches(jobs, pending) && forall j :: j in jobs ==> Apart(b.entryIds, j.sourceEntryIds)
    ensures var wide := pending[0].(entryIds := Union(pending[0].entryIds, b.entryIds));
            JobsVersusBatches(jobs, pending[0 := wide])
  {
    hide Union;
    var wide := pending[0].(entryIds := Union(pending[0].entryIds, b.entryIds));
    forall j, c | j in jobs && c in pending[0 := wide] ensures Follows(j.opId, j.sourceEntryIds, c.opId, c.entryIds) {
      assert Follows(j.opId, j.sourceEntryIds, pending[0].opId, pending[0].entryIds);
      if c != wide { assert c in pending; }
    }
  }

  lemma ReplacedRuns(s: Sched, s1: Sched, k: nat, b: Batch)
    requires RunsOk(s) && k < |s.pending| && b.opId == s.pending[k].opId
    requires s1.pending == s.pending[k := b] && s1.queue == s.queue && s1.active == s.active
    ensures RunsOk(s1) && HasBatch(s1.pending, b.opId)
    ensures forall op :: HasBatch(s.pending, op) ==> HasBatch(s1.pending, op)
  {
    assert s1.pending[k] == b;
    forall op | HasBatch(s.pending, op) ensures HasBatch(s1.pending, op) {
      var c :| c in s.pending && c.opId == op;
      var i :| 0 <= i < |s.pending| && s.pending[i] == c;
      assert s1.pending[i] in s1.pending;
    }
    hide HasBatch;
  }

  lemma CreateKeepsInv(cfg: Config, s: Sched, candidates: seq<Entry>)
    requires Inv(s) && Untouched(s, Ids(candidates))
    ensures Inv(CreateAndRun(cfg, s, candidates))
  {
    hide Inv, Untouched, Ids, Fitting, Merge, Push;
    var b := BatchOf(cfg, candidates, s.minted);
    BatchIsUntouched(cfg, s, candidates, s.minted);
    if |s.pending| >= cfg.maxPendingBatches {
      MergeKeepsInv(s, b);
    } else {
      PushKeepsInv(s, b.entryIds);
    }
  }

  lemma {:induction false} RetryKeepsInv(s: Sched, batches: seq<Batch>, now: int)
    requires Inv(s) && forall b :: b in batches ==> b in s.pending
    ensures Inv(RetryFrom(s, batches, now))
    ensures var r := RetryFrom(s, batches, now); r.pending == s.pending && r.jobs == s.jobs && r.coord == s.coord
    decreases |batches|
  {
    hide Inv;
    if batches != [] {
      var b := batches[|batches| - 1];
      assert b in batches && forall x :: x in batches[..|batches| - 1] ==> x in batches;
      RetryKeepsInv(s, batches[..|batches| - 1], now);
      var before := RetryFrom(s, batches[..|batches| - 1], now);
      assert HasBatch(before.pending, b.opId);
      QueueKeepsInv(before, b.opId);
    }
  }

  /** Consuming entries with a reason keeps every entry explained. */
  lemma ConsumeKeepsInv(s: Sched, ids: seq<string>, s1: Sched)
    requires Inv(s)
    requires s1 == Consume(s, ids).(privateIds := s1.privateIds, vanishedIds := s1.vanishedIds, treeIds := s1.treeIds)
    requires s.privateIds <= s1.privateIds && s.vanishedIds <= s1.vanishedIds && s.treeIds <= s1.treeIds
    requires s1.privateIds + s1.vanishedIds + s1.treeIds == s.privateIds + s.vanishedIds + s.treeIds + SetOf(ids)
    ensures Inv(s1)
  {
    hide BatchesApart, OpIdsDistinct, JobsApart, JobsVersusBatches, HasBatch, NamedByJob, MarkConsumed;
    var before, after := s.privateIds + s.vanishedIds + s.treeIds, s1.privateIds + s1.vanishedIds + s1.treeIds;
    assert forall id :: id in after <==> id in before || id in ids;
  }

  lemma PrivateKeepsInv(cfg: Config, s: Sched, entries: seq<Entry>)
    requires Inv(s)
    ensures Inv(ClassifyPrivate(cfg, s, entries))
  {
    var ids := Ids(Select(cfg, s, entries));
    hide Inv, Select, Ids, MarkConsumed;
    ConsumeKeepsInv(s, ids, ClassifyPrivate(cfg, s, entries));
  }

  lemma InvIgnoresTimer(s: Sched, armed: bool)
    requires Inv(s)
    ensures Inv(s.(idleArmed := armed))
  {
    hide BatchesApart, OpIdsDistinct, JobsApart, JobsVersusBatches, HasBatch, NamedByJob;
  }

  lemma InvGivesConsumed(s: Sched)
    requires Inv(s)
    ensures JobsConsumed(s) && JobsVersusBatches(s.jobs, s.pending)
  {
  }

  lemma TriggersKeepInv(cfg: Config, s: Sched, e: Event)
    requires Inv(s) && (e.AgentSettled? || e.Idle? || e.Manual? || e.Compact? || e.Retry?)
    ensures Inv(Apply(cfg, s, e))
  {
    hide Inv, Select, Ids, CreateAndRun, ClassifyPrivate, RetryFrom, Untouched, Fitting, Push, JobsConsumed, JobsVersusBatches, TotalTokens;
    var quiet := s.(idleArmed := false);
    InvIgnoresTimer(s, false);
    InvGivesConsumed(s);
    InvGivesConsumed(quiet);
    match e {
      case AgentSettled(entries, isPrivate, now) =>
        if isPrivate {
          PrivateKeepsInv(cfg, quiet, entries);
        } else {
          RetryKeepsInv(quiet, s.pending, now);
          var retried := RetryFrom(quiet, s.pending, now);
          InvGivesConsumed(retried);
          InvIgnoresTimer(retried, true);
          SelectedAreUntouched(cfg, retried, entries);
          CreateKeepsInv(cfg, retried, Select(cfg, retried, entries));
        }
      case Idle(entries, isPrivate) =>
        PrivateKeepsInv(cfg, quiet, entries);
        SelectedAreUntouched(cfg, quiet, entries);
        CreateKeepsInv(cfg, quiet, Select(cfg, quiet, entries));
      case Manual(entries, isPrivate) =>
        SelectedAreUntouched(cfg, quiet, entries);
        CreateKeepsInv(cfg, quiet, Select(cfg, quiet, entries));
      case Compact(entries, isPrivate, aborted) =>
        PrivateKeepsInv(cfg, s, entries);
        SelectedAreUntouched(cfg, s, entries);
        BatchIsUntouched(cfg, s, Select(cfg, s, entries), s.minted);
        PushKeepsInv(s, BatchOf(cfg, Select(cfg, s, entries), s.minted).entryIds);
      case Retry(now) => RetryKeepsInv(s, s.pending, now);
    }
  }

  // ---- runs ------------------------------------------------------------------------------------

  lemma {:induction false} KeptBatches(pending: seq<Batch>, keep: Batch -> bool)
    requires BatchesApart(pending) && OpIdsDistinct(pending)
    ensures BatchesApart(Filter(pending, keep)) && OpIdsDistinct(Filter(pending, keep))
  {
    if pending != [] {
      KeptBatches(pending[1..], keep);
      var rest := Filter(pending[1..], keep);
      forall i | 0 <= i < |rest| ensures Apart(pending[0].entryIds, rest[i].entryIds) && pending[0].opId != rest[i].opId {
        assert rest[i] in pending[1..];
        var k :| 0 <= k < |pending| - 1 && pending[1..][k] == rest[i];
        assert pending[k + 1] == rest[i];
      }
      hide Apart;
    }
  }

  lemma RemoveKeepsInv(s: Sched, opId: nat)
    requires Inv(s) && opId !in s.queue && (s.active.Some? ==> s.active.value.opId != opId)
    requires forall b :: b in s.pending && b.opId == opId ==> Among(b.entryIds, s.coord.consumed)
    ensures Inv(s.(pending := Filter(s.pending, OtherThan(opId))))
  {
    KeptBatches(s.pending, OtherThan(opId));
    RemovedAreConsumed(s, opId);
    hide BatchesApart, OpIdsDistinct, JobsApart, JobsConsumed, Follows, Apart, NamedByJob;
  }

  lemma RemovedAreConsumed(s: Sched, opId: nat)
    requires JobsConsumed(s) && JobsVersusBatches(s.jobs, s.pending)
    requires forall b :: b in s.pending && b.opId == opId ==> Among(b.entryIds, s.coord.consumed)
    ensures JobsConsumed(s.(pending := Filter(s.pending, OtherThan(opId))))
  {
    var kept := Filter(s.pending, OtherThan(opId));
    forall j, id | j in s.jobs && id in j.sourceEntryIds ensures id in s.coord.consumed || HasBatch(kept, j.opId) {
      if id !in s.coord.consumed {
        var b :| b in s.pending && b.opId == j.opId;
        assert Follows(j.opId, j.sourceEntryIds, b.opId, b.entryIds);
        assert b in kept;
      }
    }
  }

  lemma DequeueKeepsInv(s: Sched)
    requires Inv(s) && s.queue != []
    ensures Inv(s.(queue := s.queue[1..])) && s.queue[0] !in s.queue[1..] && HasBatch(s.pending, s.queue[0])
    ensures s.active.Some? ==> s.active.value.opId != s.queue[0]
  {
    assert s.queue[0] in s.queue && forall op :: op in s.queue[1..] ==> op in s.queue;
    hide BatchesApart, OpIdsDistinct, JobsApart, JobsVersusBatches, HasBatch, NamedByJob;
  }

  lemma ActivateKeepsInv(s: Sched, opId: nat)
    requires Inv(s) && s.active.None? && opId !in s.queue && HasBatch(s.pending, opId)
    ensures Inv(s.(active := Some(Active(opId, s.coord.generation))))
  {
    hide BatchesApart, OpIdsDistinct, JobsApart, JobsVersusBatches, HasBatch, NamedByJob;
  }

  lemma BeginKeepsInv(cfg: Config, s: Sched, entries: seq<Entry>)
    requires Inv(s)
    ensures Inv(BeginRun(cfg, s, entries))
  {
    hide Inv, Filter, Vanished, HeldByRedaction, MarkConsumed, HasBatch, IndexOf;
    if s.active.None? && s.queue != [] {
      DequeueKeepsInv(s);
      var opId, rest := s.queue[0], s.(queue := s.queue[1..]);
      ActivateKeepsInv(rest, opId);
      var k := IndexOf(s.pending, opId);
      if k.Some? {
        var ids := s.pending[k.value].entryIds;
        var consumed := Consume(rest, ids).(vanishedIds := s.vanishedIds + SetOf(ids));
        ConsumeKeepsInv(rest, ids, consumed);
        OnlyBatch(rest, k.value);
        RemoveKeepsInv(consumed, opId);
      }
    }
  }

  lemma StopKeepsInv(s: Sched)
    requires Inv(s)
    ensures Inv(s.(active := None))
  {
    hide BatchesApart, OpIdsDistinct, JobsApart, JobsVersusBatches, HasBatch, NamedByJob;
  }

  lemma CooldownKeepsInv(s: Sched, k: nat, attempts: nat, at: Option<int>)
    requires Inv(s) && k < |s.pending|
    ensures Inv(s.(pending := s.pending[k := s.pending[k].(attempts := attempts, nextAttemptAt := at)]))
  {
    var b := s.pending[k].(attempts := attempts, nextAttemptAt := at);
    var s1 := s.(pending := s.pending[k := b]);
    assert s.pending[k] in s.pending;
    ReplacedRuns(s, s1, k, b);
    forall c | c in s1.pending ensures exists d :: d in s.pending && d.opId == c.opId && d.entryIds == c.entryIds {
      if c != b { assert c in s.pending; }
    }
    hide Apart, JobsApart, RunsOk, NamedByJob;
  }

  /** Acceptance: the batch becomes a job, under its own opId. */
  lemma JobKeepsInv(s: Sched, k: nat)
    requires Inv(s) && k < |s.pending|
    ensures Inv(s.(jobs := s.jobs + [Job(s.pending[k].opId, s.pending[k].entryIds)]))
  {
    var b := s.pending[k];
    var job := Job(b.opId, b.entryIds);
    assert b in s.pending;
    JobJoins(s, k);
    hide BatchesApart, OpIdsDistinct, JobsApart, JobsVersusBatches, RunsOk;
    assert forall j :: j in s.jobs + [job] ==> j in s.jobs || j == job;
    assert forall id :: NamedByJob(s.jobs, id) ==> NamedByJob(s.jobs + [job], id);
  }

  lemma JobJoins(s: Sched, k: nat)
    requires k < |s.pending| && BatchesApart(s.pending) && OpIdsDistinct(s.pending) && JobsApart(s.jobs) && JobsVersusBatches(s.jobs, s.pending)
    ensures var job := Job(s.pending[k].opId, s.pending[k].entryIds);
            JobsApart(s.jobs + [job]) && JobsVersusBatches(s.jobs + [job], s.pending)
  {
    var b := s.pending[k];
    var job := Job(b.opId, b.entryIds);
    forall c | c in s.pending ensures Follows(job.opId, job.sourceEntryIds, c.opId, c.entryIds) {
      var i :| 0 <= i < |s.pending| && s.pending[i] == c;
    }
    hide Follows;
    assert forall j :: j in s.jobs + [job] ==> j in s.jobs || j == job;
    forall i | 0 <= i < |s.jobs| ensures Follows(s.jobs[i].opId, s.jobs[i].sourceEntryIds, job.opId, job.sourceEntryIds) {
      assert s.jobs[i] in s.jobs && b in s.pending;
    }
  }

  /** Marking what a job names keeps everything explained. */
  lemma MarkKeepsInv(s: Sched, ids: seq<string>)
    requires Inv(s) && forall id :: id in ids ==> NamedByJob(s.jobs, id)
    ensures Inv(Consume(s, ids))
  {
    hide BatchesApart, OpIdsDistinct, JobsApart, JobsVersusBatches, HasBatch, NamedByJob, MarkConsumed;
  }

  lemma LastJobNames(jobs: seq<Job>, job: Job)
    ensures forall id :: id in job.sourceEntryIds ==> NamedByJob(jobs + [job], id)
  {
    assert job in jobs + [job];
  }

  /** A finished acceptance: the job is queued, its entries are consumed, and the batch leaves. */
  lemma AcceptKeepsInv(s: Sched, k: nat)
    requires Inv(s) && k < |s.pending| && s.active.None? && s.pending[k].opId !in s.queue
    ensures var b := s.pending[k];
            Inv(Consume(s, b.entryIds).(pending := Filter(s.pending, OtherThan(b.opId)), jobs := s.jobs + [Job(b.opId, b.entryIds)]))
  {
    var b := s.pending[k];
    var queued := s.(jobs := s.jobs + [Job(b.opId, b.entryIds)]);
    JobKeepsInv(s, k);
    LastJobNames(s.jobs, Job(b.opId, b.entryIds));
    OnlyBatch(s, k);
    hide Inv, MarkConsumed, Filter, NamedByJob;
    MarkKeepsInv(queued, b.entryIds);
    RemoveKeepsInv(Consume(queued, b.entryIds), b.opId);
  }

  lemma OnlyBatch(s: Sched, k: nat)
    requires Inv(s) && k < |s.pending|
    ensures forall c :: c in s.pending && c.opId == s.pending[k].opId ==> c == s.pending[k]
  {
    forall c | c in s.pending && c.opId == s.pending[k].opId ensures c == s.pending[k] {
      var i :| 0 <= i < |s.pending| && s.pending[i] == c;
    }
    hide BatchesApart, JobsApart, JobsVersusBatches, RunsOk;
  }

  lemma RestartKeepsInv(s: Sched)
    requires Inv(s)
    ensures Inv(Restarted(s))
  {
    hide BatchesApart, OpIdsDistinct, JobsApart, JobsVersusBatches, HasBatch, NamedByJob;
  }

  lemma DieKeepsInv(s: Sched, marked: bool)
    requires Inv(s)
    ensures Inv(DieAccepting(s, marked))
  {
    hide Inv, MarkConsumed, NamedByJob, IndexOf, Restarted;
    var k := Acceptable(s);
    if k.Some? {
      var b := s.pending[k.value];
      var queued := s.(jobs := s.jobs + [Job(b.opId, b.entryIds)]);
      JobKeepsInv(s, k.value);
      LastJobNames(s.jobs, Job(b.opId, b.entryIds));
      MarkKeepsInv(queued, b.entryIds);
      RestartKeepsInv(queued);
      RestartKeepsInv(Consume(queued, b.entryIds));
    }
  }

  lemma ActiveNotQueued(s: Sched)
    requires Inv(s) && s.active.Some?
    ensures s.active.value.opId !in s.queue
  {
  }

  lemma FinishKeepsInv(cfg: Config, s: Sched, reply: Reply, enqueued: bool, now: int)
    requires Inv(s)
    ensures Inv(FinishRun(cfg, s, reply, enqueued, now))
  {
    hide Inv, Filter, MarkConsumed, Pow2, IndexOf;
    StopKeepsInv(s);
    if s.active.Some? {
      ActiveNotQueued(s);
      var done := s.(active := None);
      var k := IndexOf(s.pending, s.active.value.opId);
      if k.Some? {
        var b := s.pending[k.value];
        CooldownKeepsInv(done, k.value, b.attempts + 1, Some(now + Backoff(cfg, b.attempts + 1)));
        AcceptKeepsInv(done, k.value);
      }
    }
  }

  lemma CoordinatorKeepsInv(cfg: Config, s: Sched, e: Event)
    requires Inv(s) && (e.StartSession? || e.TreeAnnounced? || e.TreeDone? || e.ShutDown? || e.Crash?)
    ensures Inv(Apply(cfg, s, e))
  {
    hide BatchesApart, OpIdsDistinct, JobsApart, JobsVersusBatches, HasBatch, NamedByJob, MarkConsumed;
  }

  lemma StepKeepsInv(cfg: Config, s: Sched, e: Event)
    requires Inv(s)
    ensures Inv(Apply(cfg, s, e))
  {
    hide Inv;
    match e {
      case RunBegins(entries) => BeginKeepsInv(cfg, s, entries);
      case RunEnds(reply, enqueued, now) => FinishKeepsInv(cfg, s, reply, enqueued, now);
      case DiesAccepting(marked) => DieKeepsInv(s, marked);
      case AgentSettled(_, _, _) => TriggersKeepInv(cfg, s, e);
      case Idle(_, _) => TriggersKeepInv(cfg, s, e);
      case Manual(_, _) => TriggersKeepInv(cfg, s, e);
      case Compact(_, _, _) => TriggersKeepInv(cfg, s, e);
      case Retry(_) => TriggersKeepInv(cfg, s, e);
      case StartSession(_, _) => CoordinatorKeepsInv(cfg, s, e);
      case TreeAnnounced(_, _) => CoordinatorKeepsInv(cfg, s, e);
      case TreeDone(_, _, _, _) => CoordinatorKeepsInv(cfg, s, e);
      case ShutDown => CoordinatorKeepsInv(cfg, s, e);
      case Crash => CoordinatorKeepsInv(cfg, s, e);
    }
  }

  lemma {:induction false} RunKeepsInv(cfg: Config, s: Sched, events: seq<Event>)
    requires Inv(s)
    ensures Inv(Run(cfg, s, events))
    decreases |events|
  {
    hide Inv, Apply;
    if events != [] {
      StepKeepsInv(cfg, s, events[0]);
      RunKeepsInv(cfg, Apply(cfg, s, events[0]), events[1..]);
    }
  }

  // ---- which batch becomes which job -------------------------------------------------------------

  datatype Acceptance = Acceptance(opId: nat, died: bool)

  /** The job an event queues, if any, and whether the process died before it let go of the batch. */
  function Accepts(cfg: Config, s: Sched, e: Event): seq<Acceptance> {
    if Acceptable(s).None? then []
    else
      match e
      case DiesAccepting(_) => [Acceptance(s.active.value.opId, true)]
      case RunEnds(ModelAnswered, true, _) => [Acceptance(s.active.value.opId, false)]
      case _ => []
  }

  function Acceptances(cfg: Config, s: Sched, events: seq<Event>): seq<Acceptance>
    decreases |events|
  {
    if events == [] then [] else Accepts(cfg, s, events[0]) + Acceptances(cfg, Apply(cfg, s, events[0]), events[1..])
  }

  function AcceptedOps(acc: seq<Acceptance>): seq<nat> {
    seq(|acc|, i requires 0 <= i < |acc| => acc[i].opId)
  }

  function JobOps(jobs: seq<Job>): seq<nat> {
    seq(|jobs|, i requires 0 <= i < |jobs| => jobs[i].opId)
  }

  lemma TriggersQueueNoJob(cfg: Config, s: Sched, e: Event)
    requires !e.RunBegins? && !e.RunEnds? && !e.DiesAccepting?
    ensures Apply(cfg, s, e).jobs == s.jobs
  {
    hide Select, Fitting, TotalTokens, MarkConsumed, Ids, Union;
    match e {
      case AgentSettled(_, isPrivate, now) => RetryOnlyQueues(s.(idleArmed := false), s.pending, now);
      case Retry(now) => RetryOnlyQueues(s, s.pending, now);
      case _ =>
    }
  }

  lemma {:induction false} RetryOnlyQueues(s: Sched, batches: seq<Batch>, now: int)
    ensures RetryFrom(s, batches, now) == s.(queue := RetryFrom(s, batches, now).queue)
    decreases |batches|
  {
    if batches != [] { RetryOnlyQueues(s, batches[..|batches| - 1], now); }
  }

  lemma StepQueuesJobs(cfg: Config, s: Sched, e: Event)
    ensures JobOps(Apply(cfg, s, e).jobs) == JobOps(s.jobs) + AcceptedOps(Accepts(cfg, s, e))
  {
    hide Filter, MarkConsumed, Pow2, Vanished, HeldByRedaction;
    if !e.RunBegins? && !e.RunEnds? && !e.DiesAccepting? {
      TriggersQueueNoJob(cfg, s, e);
      hide Apply;
    }
  }

  lemma {:induction false} JobsAreAcceptances(cfg: Config, s: Sched, events: seq<Event>)
    ensures JobOps(Run(cfg, s, events).jobs) == JobOps(s.jobs) + AcceptedOps(Acceptances(cfg, s, events))
    decreases |events|
  {
    hide Apply, Accepts;
    if events != [] {
      StepQueuesJobs(cfg, s, events[0]);
      JobsAreAcceptances(cfg, Apply(cfg, s, events[0]), events[1..]);
    }
  }

  /** No batch has this opId any more, and none will. */
  ghost predicate Retired(s: Sched, opId: nat) {
    opId < s.minted && !HasBatch(s.pending, opId)
  }

  lemma SameOps(s: Sched, s1: Sched, opId: nat)
    requires Retired(s, opId) && s1.minted >= s.minted
    requires forall b :: b in s1.pending ==> HasBatch(s.pending, b.opId) || b.opId >= s.minted
    ensures Retired(s1, opId)
  {
  }

  lemma CreateKeepsOps(cfg: Config, s: Sched, candidates: seq<Entry>)
    ensures var s1 := CreateAndRun(cfg, s, candidates);
            && s1.minted >= s.minted
            && forall b :: b in s1.pending ==> HasBatch(s.pending, b.opId) || b.opId >= s.minted
  {
    hide Fitting, Union, Ids;
    var s1 := CreateAndRun(cfg, s, candidates);
    forall b | b in s1.pending ensures HasBatch(s.pending, b.opId) || b.opId >= s.minted {
      if b !in s.pending && |s.pending| >= cfg.maxPendingBatches {
        assert s.pending[0] in s.pending;
      }
    }
  }

  lemma TriggersKeepOps(cfg: Config, s: Sched, e: Event)
    requires !e.RunBegins? && !e.RunEnds? && !e.DiesAccepting?
    ensures var s1 := Apply(cfg, s, e);
            && s1.minted >= s.minted
            && forall b :: b in s1.pending ==> HasBatch(s.pending, b.opId) || b.opId >= s.minted
  {
    hide Select, Fitting, TotalTokens, MarkConsumed, Ids, CreateAndRun;
    var quiet := s.(idleArmed := false);
    match e {
      case AgentSettled(entries, isPrivate, now) =>
        RetryOnlyQueues(quiet, s.pending, now);
        var retried := RetryFrom(quiet, s.pending, now);
        CreateKeepsOps(cfg, retried, Select(cfg, retried, entries));
      case Idle(entries, _) => CreateKeepsOps(cfg, quiet, Select(cfg, quiet, entries));
      case Manual(entries, _) => CreateKeepsOps(cfg, quiet, Select(cfg, quiet, entries));
      case Retry(now) => RetryOnlyQueues(s, s.pending, now);
      case _ =>
    }
  }

  lemma RunsKeepOps(cfg: Config, s: Sched, e: Event)
    requires e.RunBegins? || e.RunEnds? || e.DiesAccepting?
    ensures var s1 := Apply(cfg, s, e);
            && s1.minted == s.minted
            && forall b :: b in s1.pending ==> HasBatch(s.pending, b.opId)
  {
    hide MarkConsumed, Pow2, Vanished, HeldByRedaction;
  }

  lemma StepKeepsRetired(cfg: Config, s: Sched, e: Event, opId: nat)
    requires Retired(s, opId)
    ensures Retired(Apply(cfg, s, e), opId)
  {
    hide Apply, Retired;
    if e.RunBegins? || e.RunEnds? || e.DiesAccepting? {
      RunsKeepOps(cfg, s, e);
    } else {
      TriggersKeepOps(cfg, s, e);
    }
    SameOps(s, Apply(cfg, s, e), opId);
  }

  lemma FinishedRetires(cfg: Config, s: Sched, e: Event)
    requires Inv(s) && Accepts(cfg, s, e) != []
    ensures Accepts(cfg, s, e)[0].died || Retired(Apply(cfg, s, e), Accepts(cfg, s, e)[0].opId)
    ensures HasBatch(s.pending, Accepts(cfg, s, e)[0].opId)
  {
    hide BatchesApart, OpIdsDistinct, JobsApart, JobsVersusBatches, RunsOk, Explained, JobsConsumed, MarkConsumed;
    assert s.pending[Acceptable(s).value] in s.pending;
  }

  lemma {:induction false} RetiredIsNotAccepted(cfg: Config, s: Sched, events: seq<Event>, opId: nat)
    requires Inv(s) && Retired(s, opId)
    ensures forall a :: a in Acceptances(cfg, s, events) ==> a.opId != opId
    decreases |events|
  {
    hide Inv, Apply, Accepts;
    if events != [] {
      if Accepts(cfg, s, events[0]) != [] {
        FinishedRetires(cfg, s, events[0]);
      }
      OneAcceptance(cfg, s, events[0]);
      StepKeepsInv(cfg, s, events[0]);
      StepKeepsRetired(cfg, s, events[0], opId);
      RetiredIsNotAccepted(cfg, Apply(cfg, s, events[0]), events[1..], opId);
    }
  }

  lemma OneAcceptance(cfg: Config, s: Sched, e: Event)
    ensures |Accepts(cfg, s, e)| <= 1
  {
  }

  /** Only a death inside acceptance leaves an opId to be accepted again. */
  lemma {:induction false} RepeatsFollowDeaths(cfg: Config, s: Sched, events: seq<Event>, i: nat, j: nat)
    requires Inv(s)
    requires i < j < |Acceptances(cfg, s, events)|
    requires Acceptances(cfg, s, events)[i].opId == Acceptances(cfg, s, events)[j].opId
    ensures Acceptances(cfg, s, events)[i].died
    decreases |events|
  {
    hide Inv, Apply, Accepts;
    var first, next := Accepts(cfg, s, events[0]), Apply(cfg, s, events[0]);
    var rest := Acceptances(cfg, next, events[1..]);
    OneAcceptance(cfg, s, events[0]);
    StepKeepsInv(cfg, s, events[0]);
    assert Acceptances(cfg, s, events) == first + rest;
    if i >= |first| {
      RepeatsFollowDeaths(cfg, next, events[1..], i - |first|, j - |first|);
    } else {
      assert rest[j - 1] in rest;
      FinishedRetires(cfg, s, events[0]);
      if !first[0].died {
        RetiredIsNotAccepted(cfg, next, events[1..], first[0].opId);
      }
    }
  }

  // ---- the theorems --------------------------------------------------------------------------------

  /**
   * In every run, with crashes anywhere: no entry is in two pending batches, and jobs and batches of
   * different opIds name no entry in common; of one opId, a later job or batch names all that an
   * earlier job named.
   */
  lemma EntriesBelongToOneOpId(cfg: Config, events: seq<Event>)
    ensures var s := Run(cfg, Fresh, events);
            && (forall i, j :: 0 <= i < j < |s.pending| ==>
                  s.pending[i].opId != s.pending[j].opId && Apart(s.pending[i].entryIds, s.pending[j].entryIds))
            && (forall i, j :: 0 <= i < j < |s.jobs| ==>
                  Follows(s.jobs[i].opId, s.jobs[i].sourceEntryIds, s.jobs[j].opId, s.jobs[j].sourceEntryIds))
            && (forall j, b :: j in s.jobs && b in s.pending ==> Follows(j.opId, j.sourceEntryIds, b.opId, b.entryIds))
  {
    FreshInv();
    RunKeepsInv(cfg, Fresh, events);
    hide Follows, Apart;
  }

  lemma FreshInv()
    ensures Inv(Fresh)
  {
  }

  /**
   * Jobs and acceptances correspond one to one, in order; and an opId has two jobs exactly when a
   * death inside its acceptance was followed by another acceptance of it.
   */
  lemma TwoJobsIff(cfg: Config, events: seq<Event>, opId: nat)
    ensures var jobs, acc := Run(cfg, Fresh, events).jobs, Acceptances(cfg, Fresh, events);
            && JobOps(jobs) == AcceptedOps(acc)
            && ((exists i, j :: 0 <= i < j < |jobs| && jobs[i].opId == opId && jobs[j].opId == opId)
                <==> (exists i, j :: 0 <= i < j < |acc| && acc[i] == Acceptance(opId, true) && acc[j].opId == opId))
  {
    hide Run, Acceptances, Inv;
    var jobs, acc := Run(cfg, Fresh, events).jobs, Acceptances(cfg, Fresh, events);
    FreshInv();
    JobsAreAcceptances(cfg, Fresh, events);
    assert JobOps(jobs) == AcceptedOps(acc);
    SameLengths(jobs, acc);
    if i, j :| 0 <= i < j < |jobs| && jobs[i].opId == opId && jobs[j].opId == opId {
      RepeatsFollowDeaths(cfg, Fresh, events, i, j);
      assert acc[i] == Acceptance(opId, true);
    }
  }

  lemma SameLengths(jobs: seq<Job>, acc: seq<Acceptance>)
    requires JobOps(jobs) == AcceptedOps(acc)
    ensures |jobs| == |acc| && forall k :: 0 <= k < |jobs| ==> jobs[k].opId == acc[k].opId
  {
    assert |JobOps(jobs)| == |AcceptedOps(acc)|;
    forall k | 0 <= k < |jobs| ensures jobs[k].opId == acc[k].opId {
      assert JobOps(jobs)[k] == AcceptedOps(acc)[k];
    }
  }

  /** A run in which that happens: one entry, one death, and recovery queues the batch again. */
  lemma DyingInsideAcceptanceQueuesTwice(cfg: Config, e: Entry, now: int) returns (events: seq<Event>)
    requires cfg.hasExtractor && cfg.maxPendingBatches > 0
    requires !cfg.blank(e.text) && !cfg.excluded(e.text) && cfg.redactable(e.text)
    ensures Run(cfg, Fresh, events).jobs == [Job(0, [e.id]), Job(0, [e.id])]
  {
    var attempt := [RunBegins([e]), DiesAccepting(false), Retry(now), RunBegins([e]), RunEnds(ModelAnswered, true, now)];
    events := [Manual([e], false)] + attempt;
    var b := Batch(0, [e.id], 0, None);
    var s1 := Fresh.(pending := [b], queue := [0], minted := 1);
    OneEntryIsTaken(cfg, e);
    assert Apply(cfg, Fresh, Manual([e], false)) == s1;
    OneEntryIsSent(cfg, e);
    var s2 := s1.(queue := [], active := Some(Active(0, 0)));
    assert Apply(cfg, s1, RunBegins([e])) == s2;
    var s3 := Fresh.(pending := [b], minted := 1, jobs := [Job(0, [e.id])]);
    assert Apply(cfg, s2, DiesAccepting(false)) == s3;
    var s4 := s3.(queue := [0]);
    assert [b][..0] == [] && RetryFrom(s3, [], now) == s3;
    assert Apply(cfg, s3, Retry(now)) == s4;
    var s5 := s4.(queue := [], active := Some(Active(0, 0)));
    assert Apply(cfg, s4, RunBegins([e])) == s5;
    var s6 := Apply(cfg, s5, RunEnds(ModelAnswered, true, now));
    assert s6.jobs == [Job(0, [e.id])] + [Job(0, [e.id])];
    hide Apply;
    assert events[1..] == attempt;
    assert attempt[1..] == [DiesAccepting(false), Retry(now), RunBegins([e]), RunEnds(ModelAnswered, true, now)];
    var last := RunEnds(ModelAnswered, true, now);
    assert Run(cfg, s5, [last]) == Run(cfg, s6, []);
    assert Run(cfg, s4, [RunBegins([e]), last]) == s6;
    assert Run(cfg, s3, [Retry(now), RunBegins([e]), last]) == s6;
    assert Run(cfg, s2, attempt[1..]) == s6;
    assert Run(cfg, s1, attempt) == s6;
  }

  lemma OneEntryIsTaken(cfg: Config, e: Entry)
    requires !cfg.blank(e.text) && !cfg.excluded(e.text)
    ensures Select(cfg, Fresh, [e]) == [e]
    ensures BatchOf(cfg, [e], 0) == Batch(0, [e.id], 0, None)
  {
    assert [e][1..] == [];
  }

  lemma OneEntryIsSent(cfg: Config, e: Entry)
    requires cfg.redactable(e.text)
    ensures !Vanished([e], [e.id]) && !HeldByRedaction(cfg, [e], [e.id])
  {
    assert TextOf([e], e.id) == Some(e.text);
    assert e.id in [e.id];
  }

  ghost predicate NoDeathInside(events: seq<Event>) {
    forall e :: e in events ==> !e.DiesAccepting?
  }

  lemma {:induction false} NobodyDied(cfg: Config, s: Sched, events: seq<Event>)
    requires NoDeathInside(events)
    ensures forall a :: a in Acceptances(cfg, s, events) ==> !a.died
    decreases |events|
  {
    hide Apply;
    if events != [] {
      assert events[0] in events;
      NobodyDied(cfg, Apply(cfg, s, events[0]), events[1..]);
    }
  }

  lemma {:induction false} AcceptedAreRetired(cfg: Config, s: Sched, events: seq<Event>)
    requires Inv(s) && NoDeathInside(events) && forall j :: j in s.jobs ==> Retired(s, j.opId)
    ensures forall j :: j in Run(cfg, s, events).jobs ==> Retired(Run(cfg, s, events), j.opId)
    decreases |events|
  {
    hide Inv, Apply, Accepts, Retired;
    if events != [] {
      assert events[0] in events;
      var next := Apply(cfg, s, events[0]);
      StepKeepsInv(cfg, s, events[0]);
      NewJobsAreRetired(cfg, s, events[0]);
      AcceptedAreRetired(cfg, next, events[1..]);
    }
  }

  lemma NewJobsAreRetired(cfg: Config, s: Sched, e: Event)
    requires Inv(s) && !e.DiesAccepting? && forall j :: j in s.jobs ==> Retired(s, j.opId)
    ensures forall j :: j in Apply(cfg, s, e).jobs ==> Retired(Apply(cfg, s, e), j.opId)
  {
    var next, first := Apply(cfg, s, e), Accepts(cfg, s, e);
    StepQueuesJobs(cfg, s, e);
    OneAcceptance(cfg, s, e);
    if first != [] {
      FinishedRetires(cfg, s, e);
      assert !first[0].died;
    }
    hide Inv, Apply, Accepts, Retired;
    forall j | j in next.jobs ensures Retired(next, j.opId) {
      var k :| 0 <= k < |next.jobs| && next.jobs[k] == j;
      assert JobOps(next.jobs)[k] == j.opId;
      if k < |s.jobs| {
        assert JobOps(s.jobs)[k] == s.jobs[k].opId && s.jobs[k] in s.jobs;
        StepKeepsRetired(cfg, s, e, j.opId);
      }
    }
  }

  /**
   * In every run with crashes anywhere but inside acceptance: no entry is in two pending batches,
   * no opId yields two jobs, and no entry is named by two jobs, or by a job and a pending batch.
   */
  lemma NoEntryIsExtractedTwice(cfg: Config, events: seq<Event>)
    requires NoDeathInside(events)
    ensures var s := Run(cfg, Fresh, events);
            && (forall i, j :: 0 <= i < j < |s.pending| ==> Apart(s.pending[i].entryIds, s.pending[j].entryIds))
            && (forall i, j :: 0 <= i < j < |s.jobs| ==>
                  s.jobs[i].opId != s.jobs[j].opId && Apart(s.jobs[i].sourceEntryIds, s.jobs[j].sourceEntryIds))
            && (forall j, b :: j in s.jobs && b in s.pending ==> j.opId != b.opId && Apart(j.sourceEntryIds, b.entryIds))
  {
    var s := Run(cfg, Fresh, events);
    FreshInv();
    EntriesBelongToOneOpId(cfg, events);
    NobodyDied(cfg, Fresh, events);
    AcceptedAreRetired(cfg, Fresh, events);
    hide Run, Inv, Apart;
    forall i, j | 0 <= i < j < |s.jobs| ensures s.jobs[i].opId != s.jobs[j].opId {
      TwoJobsIff(cfg, events, s.jobs[i].opId);
    }
    forall j, b | j in s.jobs && b in s.pending ensures j.opId != b.opId {
      assert Retired(s, j.opId);
    }
  }

  /**
   * Nothing is consumed without a reason on record, every reason consumes, and what a job names is
   * consumed or still in the batch of that job.
   */
  lemma ConsumedMeansAccountedFor(cfg: Config, events: seq<Event>, id: string)
    ensures var s := Run(cfg, Fresh, events);
            && (id in s.coord.consumed ==> NamedByJob(s.jobs, id) || id in s.privateIds || id in s.vanishedIds || id in s.treeIds)
            && (id in s.privateIds || id in s.vanishedIds || id in s.treeIds ==> id in s.coord.consumed)
            && (forall j :: j in s.jobs && id in j.sourceEntryIds ==>
                  id in s.coord.consumed || exists b :: b in s.pending && b.opId == j.opId && id in b.entryIds)
  {
    FreshInv();
    RunKeepsInv(cfg, Fresh, events);
    var s := Run(cfg, Fresh, events);
    forall j | j in s.jobs && id in j.sourceEntryIds && id !in s.coord.consumed
      ensures exists b :: b in s.pending && b.opId == j.opId && id in b.entryIds
    {
      var b :| b in s.pending && b.opId == j.opId;
      assert Follows(j.opId, j.sourceEntryIds, b.opId, b.entryIds);
    }
    hide BatchesApart, OpIdsDistinct, JobsApart, RunsOk, Minted, Run;
  }

  /** One run per batch: none is queued twice, or queued while it is at the model. */
  lemma SingleFlightPerBatch(cfg: Config, events: seq<Event>)
    ensures var s := Run(cfg, Fresh, events);
            && (forall i, j :: 0 <= i < j < |s.queue| ==> s.queue[i] != s.queue[j])
            && (s.active.Some? ==> s.active.value.opId !in s.queue)
            && (forall op :: Running(s, op) ==> HasBatch(s.pending, op))
  {
    FreshInv();
    RunKeepsInv(cfg, Fresh, events);
    hide BatchesApart, OpIdsDistinct, JobsApart, JobsVersusBatches, HasBatch, Explained;
  }

  /**
   * No usable entry is forgotten: in every run it is offered to the next trigger, until and unless a
   * pending batch or a job names it, or it was private, vanished or was committed by navigation.
   */
  lemma NoEntryIsForgotten(cfg: Config, events: seq<Event>, entries: seq<Entry>, e: Entry)
    requires e in entries && !cfg.blank(e.text) && !cfg.excluded(e.text)
    ensures var s := Run(cfg, Fresh, events);
            e in Select(cfg, s, entries) <==>
              && (forall b :: b in s.pending ==> e.id !in b.entryIds) && !NamedByJob(s.jobs, e.id)
              && e.id !in s.privateIds && e.id !in s.vanishedIds && e.id !in s.treeIds
  {
    var s := Run(cfg, Fresh, events);
    ConsumedMeansAccountedFor(cfg, events, e.id);
    InFlightIs(s.pending, e.id);
    hide Run, InFlight;
  }

  lemma InFlightIs(pending: seq<Batch>, id: string)
    ensures id in InFlight(pending) <==> exists b :: b in pending && id in b.entryIds
  {
  }

  // ---- results of an older place ---------------------------------------------------------------------

  /** The session or the leaf changes, or a session begins again. */
  predicate Moves(c: Coord, e: Event) {
    match e
    case StartSession(session, _) => !c.active || session != c.sessionId
    case TreeDone(session, oldLeaf, newLeaf, _) =>
      !c.active || (oldLeaf != newLeaf && c.lastTree != Some((oldLeaf, newLeaf)))
    case _ => false
  }

  lemma StepGeneration(cfg: Config, s: Sched, e: Event)
    ensures Apply(cfg, s, e).coord.generation == s.coord.generation + if Moves(s.coord, e) then 1 else 0
  {
    hide Select, Fitting, TotalTokens, MarkConsumed, Ids, Union, Filter, Vanished, HeldByRedaction, Pow2;
    match e {
      case AgentSettled(_, isPrivate, now) => RetryOnlyQueues(s.(idleArmed := false), s.pending, now);
      case Retry(now) => RetryOnlyQueues(s, s.pending, now);
      case _ =>
    }
  }

  lemma {:induction false} GenerationIff(cfg: Config, s: Sched, events: seq<Event>)
    ensures Run(cfg, s, events).coord.generation >= s.coord.generation
    ensures Run(cfg, s, events).coord.generation == s.coord.generation <==>
              forall i :: 0 <= i < |events| ==> !Moves(Run(cfg, s, events[..i]).coord, events[i])
    decreases |events|
  {
    hide Apply, Moves;
    if events != [] {
      var next := Apply(cfg, s, events[0]);
      StepGeneration(cfg, s, events[0]);
      GenerationIff(cfg, next, events[1..]);
      assert events[..0] == [];
      forall i | 0 < i < |events| ensures Run(cfg, s, events[..i]) == Run(cfg, next, events[1..][..i - 1]) {
        assert events[..i][1..] == events[1..][..i - 1];
      }
      if forall i :: 0 <= i < |events| ==> !Moves(Run(cfg, s, events[..i]).coord, events[i]) {
        forall i | 0 <= i < |events| - 1 ensures !Moves(Run(cfg, next, events[1..][..i]).coord, events[1..][i]) {
          assert events[1..][i] == events[i + 1];
        }
      } else {
        var i :| 0 <= i < |events| && Moves(Run(cfg, s, events[..i]).coord, events[i]);
        if i > 0 {
          assert events[1..][i - 1] == events[i];
        }
      }
    }
  }

  /**
   * Whatever happens while a batch is at the model: its answer becomes a job exactly when no event in
   * between moved the session to another place. Generations never go down, so no later event makes an
   * old answer fresh again.
   */
  lemma AnswerIsKeptIff(cfg: Config, before: seq<Event>, between: seq<Event>, now: int)
    requires var s := Run(cfg, Fresh, before);
             s.active.Some? && s.active.value.generation == s.coord.generation && Run(cfg, s, between).active == s.active
    ensures var s := Run(cfg, Fresh, before);
            var t := Run(cfg, s, between);
            && t.coord.generation >= s.coord.generation
            && (|Apply(cfg, t, RunEnds(ModelAnswered, true, now)).jobs| == |t.jobs| + 1 <==>
                  forall i :: 0 <= i < |between| ==> !Moves(Run(cfg, s, between[..i]).coord, between[i]))
  {
    hide Run, Inv, Filter, MarkConsumed, IndexOf, Moves;
    var s := Run(cfg, Fresh, before);
    var t := Run(cfg, s, between);
    FreshInv();
    RunKeepsInv(cfg, Fresh, before);
    RunKeepsInv(cfg, s, between);
    GenerationIff(cfg, s, between);
    ActiveHasBatch(t);
  }

  lemma ActiveHasBatch(s: Sched)
    requires Inv(s) && s.active.Some?
    ensures IndexOf(s.pending, s.active.value.opId).Some?
  {
    hide BatchesApart, OpIdsDistinct, JobsApart, JobsVersusBatches, JobsConsumed, Explained, IndexOf;
  }

  lemma NextTokens(candidates: seq<Entry>, i: nat)
    requires i < |candidates|
    ensures TotalTokens(candidates[..i + 1]) == TotalTokens(candidates[..i]) + EstimateTokens(candidates[i].text)
  {
    hide EstimateTokens;
    var longer := candidates[..i + 1];
    assert longer[..i] == candidates[..i] && longer[i] == candidates[i];
  }

  lemma {:induction false} FittingIsGreedy(cfg: Config, candidates: seq<Entry>, i: nat, tokens: nat)
    requires i <= |candidates| && tokens == TotalTokens(candidates[..i])
    requires i > 1 ==> tokens <= cfg.inputBudgetTokens
    ensures var n := Fitting(cfg, candidates, i, tokens);
            && (n > 1 ==> TotalTokens(candidates[..n]) <= cfg.inputBudgetTokens)
            && (0 < n < |candidates| ==> TotalTokens(candidates[..n + 1]) > cfg.inputBudgetTokens)
    decreases |candidates| - i
  {
    hide EstimateTokens, TotalTokens;
    if i < |candidates| {
      NextTokens(candidates, i);
      var t := EstimateTokens(candidates[i].text);
      if !(i > 0 && tokens + t > cfg.inputBudgetTokens) {
        FittingIsGreedy(cfg, candidates, i + 1, tokens + t);
      }
    }
  }

  /** A batch is the longest prefix of the candidates within the input budget, and never empty. */
  lemma BatchIsLongestFit(cfg: Config, candidates: seq<Entry>, opId: nat)
    requires candidates != []
    ensures var n := |BatchOf(cfg, candidates, opId).entryIds|;
            && 0 < n <= |candidates| && BatchOf(cfg, candidates, opId).entryIds == Ids(candidates[..n])
            && (n > 1 ==> TotalTokens(candidates[..n]) <= cfg.inputBudgetTokens)
            && (n < |candidates| ==> TotalTokens(candidates[..n + 1]) > cfg.inputBudgetTokens)
  {
    FittingIsGreedy(cfg, candidates, 0, 0);
  }
}
