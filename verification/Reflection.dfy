/**
 * The reflection engine: pending observation records, one running set at a time, sets split in half
 * when they exceed the model's input budget, and sets parked after too many failures.
 */
module Reflection {
  import opened Common

  const RETRY_BASE_MS: int := 30000
  const RETRY_CAP_MS: int := 10 * 60 * 1000

  /** `hash` is the identity of a set of record ids. */
  datatype Config = Config(
    hasReflector: bool,
    minObservations: int,
    maxProcessedSets: nat,
    maxSeenRecords: nat,
    maxAttemptsPerSet: nat,
    hash: seq<string> -> string)

  datatype Item = Item(setHash: string, recordIds: seq<string>, startedAt: int, attempts: nat, nextAttemptAt: Option<int>)

  /** A reflection job. `finished` is history: whether its acceptance went on to let the set go. */
  datatype Job = Job(setHash: string, recordIds: seq<string>, finished: bool)

  /** The last five fields are history. */
  datatype Refl = Refl(
    pending: seq<string>,
    seen: seq<string>,
    processed: seq<string>,
    skipped: seq<string>,
    running: Option<Item>,
    jobs: seq<Job>,
    notified: set<string>,
    summarised: set<string>,
    parked: set<string>,
    dropped: set<string>)

  const Fresh: Refl := Refl([], [], [], [], None, [], {}, {}, {}, {})

  datatype Reply = Answers | BudgetExceeded | Fails

  /**
   * How queueing the result ends: no job; the reflection job only, because a merge proposal is refused
   * or the process dies before the set is let go; or every job.
   */
  datatype Queued = NoJob | ReflectionOnly(died: bool) | AllJobs

  /**
   * What one run reads from outside, call by call: the model's reply, the records that arrive while
   * it is away, how far the outbox takes the result; and the redactor and the clock.
   */
  datatype Env = Env(
    reply: nat -> Reply,
    arrivals: nat -> seq<string>,
    queued: nat -> Queued,
    redactOk: string -> bool,
    clock: nat -> int)

  function LastN(xs: seq<string>, n: nat): seq<string> {
    if |xs| > n then xs[|xs| - n..] else xs
  }

  function Without(ids: seq<string>): string -> bool {
    (id: string) => id !in ids
  }

  function Among(ids: seq<string>): string -> bool {
    (id: string) => id in ids
  }

  function SetOf(ids: seq<string>): set<string> {
    set id | id in ids :: id
  }

  // ---- the operations -----------------------------------------------------------------

  /** A notification seen recently is a replay; the window of remembered ids is bounded. */
  function NoteAccepted(cfg: Config, s: Refl, id: string): Refl {
    if id in s.seen then s
    else s.(seen := LastN(s.seen + [id], cfg.maxSeenRecords), pending := s.pending + [id], notified := s.notified + {id})
  }

  function NoteAll(cfg: Config, s: Refl, ids: seq<string>): (r: Refl)
    ensures r.running == s.running && r.dropped == s.dropped && r.jobs == s.jobs && r.parked == s.parked
  {
    if ids == [] then s else NoteAccepted(cfg, NoteAll(cfg, s, ids[..|ids| - 1]), ids[|ids| - 1])
  }

  function Pow2(n: nat): nat {
    if n == 0 then 1 else 2 * Pow2(n - 1)
  }

  /** Another try after a cooldown, or, at the limit, parked visibly. */
  function ArmRetry(cfg: Config, s: Refl, now: int): Refl
    requires s.running.Some?
  {
    var item := s.running.value;
    var attempts := item.attempts + 1;
    if attempts >= cfg.maxAttemptsPerSet then
      s.(skipped := LastN(s.skipped + [item.setHash], cfg.maxProcessedSets),
         pending := Filter(s.pending, Without(item.recordIds)),
         running := None,
         parked := s.parked + SetOf(item.recordIds))
    else
      s.(running := Some(item.(attempts := attempts,
                               nextAttemptAt := Some(now + Min(RETRY_CAP_MS, RETRY_BASE_MS * Pow2(Min(attempts - 1, 16)))))))
  }

  /** The reflection job comes first; the records leave the pool once every job is durable. */
  function Accept(cfg: Config, s: Refl, q: Queued): Refl
    requires s.running.Some?
  {
    var item := s.running.value;
    match q
    case NoJob => s
    case ReflectionOnly(_) => s.(jobs := s.jobs + [Job(item.setHash, item.recordIds, false)])
    case AllJobs =>
      s.(jobs := s.jobs + [Job(item.setHash, item.recordIds, true)],
         processed := LastN(s.processed + [item.setHash], cfg.maxProcessedSets),
         pending := Filter(s.pending, Without(item.recordIds)),
         running := None,
         summarised := s.summarised + SetOf(item.recordIds))
  }

  /** The first half stays running, under its own identity; the rest never left the pool. */
  function SplitInHalf(cfg: Config, s: Refl, now: int): Refl
    requires s.running.Some? && |s.running.value.recordIds| > 1
  {
    var item := s.running.value;
    var head := item.recordIds[..(|item.recordIds| + 1) / 2];
    s.(running := Some(item.(recordIds := head, setHash := cfg.hash(head), startedAt := now, attempts := 0)))
  }

  /** A set whose records are not all in the pool shrinks to those that are. */
  function Rederive(cfg: Config, s: Refl): Refl
    requires s.running.Some?
  {
    var item := s.running.value;
    var present := Filter(item.recordIds, Among(s.pending));
    if |present| != |item.recordIds| then s.(running := Some(item.(recordIds := present, setHash := cfg.hash(present)))) else s
  }

  lemma {:induction false} FilterAll(xs: seq<string>, keep: string -> bool)
    ensures |Filter(xs, keep)| == |xs| ==> Filter(xs, keep) == xs
  {
    if xs != [] { FilterAll(xs[1..], keep); }
  }

  /** `calls` counts the model calls that returned; the process dies at the call after `fuel`, or while accepting. */
  datatype Ran = Ran(state: Refl, calls: nat, died: bool)

  function RunSet(cfg: Config, s: Refl, env: Env, k: nat, fuel: nat): Ran
    requires s.running.Some?
    decreases |s.running.value.recordIds|, 2
  {
    if !cfg.hasReflector then Ran(s, 0, false)
    else
      Attempt(cfg, Rederive(cfg, s), env, k, fuel)
  }

  /** Re-screened, then given to the model. */
  function Attempt(cfg: Config, s: Refl, env: Env, k: nat, fuel: nat): Ran
    requires s.running.Some?
    decreases |s.running.value.recordIds|, 1
  {
    var ids := s.running.value.recordIds;
    if ids == [] then Ran(s.(running := None), 0, false)
    else if exists id :: id in ids && !env.redactOk(id) then Ran(ArmRetry(cfg, s, env.clock(k)), 0, false)
    else if fuel == 0 then Ran(s, 0, true)
    else
      var after := Returned(cfg, NoteAll(cfg, s, env.arrivals(k)), env, k, fuel - 1);
      Ran(after.state, after.calls + 1, after.died)
  }

  /** The model is back; a set over the budget is halved and run again at once. */
  function Returned(cfg: Config, s: Refl, env: Env, k: nat, fuel: nat): Ran
    requires s.running.Some?
    decreases |s.running.value.recordIds|, 0
  {
    match env.reply(k)
    case Answers => Ran(Accept(cfg, s, env.queued(k)), 0, env.queued(k) == ReflectionOnly(true))
    case Fails => Ran(ArmRetry(cfg, s, env.clock(k)), 0, false)
    case BudgetExceeded =>
      if |s.running.value.recordIds| > 1 then RunSet(cfg, SplitInHalf(cfg, s, env.clock(k)), env, k + 1, fuel)
      else Ran(ArmRetry(cfg, s, env.clock(k)), 0, false)
  }

  datatype Trigger = Auto | ByHand

  /** One trigger: finish what is in flight first, then start a set over the whole pool. */
  function RunOnce(cfg: Config, s: Refl, trigger: Trigger, now: int, env: Env, fuel: nat): Ran {
    if s.running.Some? then
      var next := s.running.value.nextAttemptAt;
      if next.Some? && next.value > now && trigger == Auto then Ran(s, 0, false) else RunSet(cfg, s, env, 0, fuel)
    else if !cfg.hasReflector || s.pending == [] then Ran(s, 0, false)
    else if trigger == Auto && |s.pending| < cfg.minObservations then Ran(s, 0, false)
    else if cfg.hash(s.pending) in s.processed then
      Ran(s.(pending := [], dropped := s.dropped + SetOf(s.pending)), 0, false)
    else
      RunSet(cfg, s.(running := Some(Item(cfg.hash(s.pending), s.pending, now, 0, None))), env, 0, fuel)
  }

  // ---- the engine, in its own form ---------------------------------------------------------

  class ReflectionEngine {
    const cfg: Config
    var pending: seq<string>
    var seen: seq<string>
    var processed: seq<string>
    var skipped: seq<string>
    var running: Option<Item>
    var jobs: seq<Job>
    ghost var notified: set<string>
    ghost var summarised: set<string>
    ghost var parked: set<string>
    ghost var dropped: set<string>

    ghost function Value(): Refl
      reads this
    {
      Refl(pending, seen, processed, skipped, running, jobs, notified, summarised, parked, dropped)
    }

    constructor (cfg: Config)
      ensures this.cfg == cfg && Value() == Fresh
    {
      this.cfg := cfg;
      pending, seen, processed, skipped, running, jobs := [], [], [], [], None, [];
      notified, summarised, parked, dropped := {}, {}, {}, {};
    }

    method Note(id: string)
      modifies this
      ensures Value() == NoteAccepted(cfg, old(Value()), id)
    {
      if id in seen { return; }
      seen := seen + [id];
      if |seen| > cfg.maxSeenRecords {
        seen := seen[|seen| - cfg.maxSeenRecords..];
      }
      pending := pending + [id];
      notified := notified + {id};
    }

    method Arrive(ids: seq<string>)
      modifies this
      ensures Value() == NoteAll(cfg, old(Value()), ids)
    {
      for i := 0 to |ids|
        invariant Value() == NoteAll(cfg, old(Value()), ids[..i])
      {
        assert ids[..i + 1][..i] == ids[..i];
        Note(ids[i]);
      }
      assert ids[..|ids|] == ids;
    }

    method Retry(now: int)
      requires running.Some?
      modifies this
      ensures Value() == ArmRetry(cfg, old(Value()), now)
    {
      hide Filter, Pow2;
      var item := running.value;
      item := item.(attempts := item.attempts + 1);
      if item.attempts >= cfg.maxAttemptsPerSet {
        skipped := skipped + [item.setHash];
        if |skipped| > cfg.maxProcessedSets {
          skipped := skipped[|skipped| - cfg.maxProcessedSets..];
        }
        pending := Filter(pending, Without(item.recordIds));
        running := None;
        parked := parked + SetOf(item.recordIds);
        return;
      }
      var backoff := Min(RETRY_CAP_MS, RETRY_BASE_MS * Pow2(Min(item.attempts - 1, 16)));
      running := Some(item.(nextAttemptAt := Some(now + backoff)));
    }

    method AcceptResult(q: Queued) returns (died: bool)
      requires running.Some?
      modifies this
      ensures Value() == Accept(cfg, old(Value()), q)
      ensures died <==> q == ReflectionOnly(true)
    {
      hide Filter;
      if q.NoJob? { return false; }
      var item := running.value;
      jobs := jobs + [Job(item.setHash, item.recordIds, q.AllJobs?)];
      if q.ReflectionOnly? { return q.died; }
      processed := processed + [item.setHash];
      if |processed| > cfg.maxProcessedSets {
        processed := processed[|processed| - cfg.maxProcessedSets..];
      }
      pending := Filter(pending, Without(item.recordIds));
      running := None;
      summarised := summarised + SetOf(item.recordIds);
      return false;
    }

    method Present(ids: seq<string>) returns (present: seq<string>)
      ensures present == Filter(ids, Among(pending))
    {
      hide Filter;
      present := [];
      assert ids[0..] == ids;
      for i := 0 to |ids|
        invariant present + Filter(ids[i..], Among(pending)) == Filter(ids, Among(pending))
      {
        FilterAt(ids, Among(pending), i);
        if ids[i] in pending { present := present + [ids[i]]; }
      }
      assert ids[|ids|..] == [];
    }

    method RunRunning(env: Env, k: nat, fuel: nat) returns (calls: nat, died: bool)
      requires running.Some?
      modifies this
      ensures Ran(Value(), calls, died) == RunSet(cfg, old(Value()), env, k, fuel)
      decreases |running.value.recordIds|, 2
    {
      hide Filter, Attempt;
      if !cfg.hasReflector { return 0, false; }
      var item := running.value;
      var present := Present(item.recordIds);
      if |present| != |item.recordIds| {
        running := Some(item.(recordIds := present, setHash := cfg.hash(present)));
      }
      calls, died := Send(env, k, fuel);
    }

    method Send(env: Env, k: nat, fuel: nat) returns (calls: nat, died: bool)
      requires running.Some?
      modifies this
      ensures Ran(Value(), calls, died) == Attempt(cfg, old(Value()), env, k, fuel)
      decreases |running.value.recordIds|, 1
    {
      hide NoteAll, ArmRetry, Returned;
      var ids := running.value.recordIds;
      if |ids| == 0 {
        running := None;
        return 0, false;
      }
      if exists id :: id in ids && !env.redactOk(id) {
        Retry(env.clock(k));
        return 0, false;
      }
      if fuel == 0 { return 0, true; }
      Arrive(env.arrivals(k));
      calls, died := HandleReply(env, k, fuel - 1);
      calls := calls + 1;
    }

    method HandleReply(env: Env, k: nat, fuel: nat) returns (calls: nat, died: bool)
      requires running.Some?
      modifies this
      ensures Ran(Value(), calls, died) == Returned(cfg, old(Value()), env, k, fuel)
      decreases |running.value.recordIds|, 0
    {
      hide ArmRetry, Accept, RunSet;
      calls, died := 0, false;
      match env.reply(k) {
        case Answers => died := AcceptResult(env.queued(k));
        case Fails => Retry(env.clock(k));
        case BudgetExceeded =>
          var ids := running.value.recordIds;
          if |ids| > 1 {
            var head := ids[..(|ids| + 1) / 2];
            running := Some(running.value.(recordIds := head, setHash := cfg.hash(head), startedAt := env.clock(k), attempts := 0));
            calls, died := RunRunning(env, k + 1, fuel);
          } else {
            Retry(env.clock(k));
          }
      }
    }

    method Run(trigger: Trigger, now: int, env: Env, fuel: nat) returns (calls: nat, died: bool)
      modifies this
      ensures Ran(Value(), calls, died) == RunOnce(cfg, old(Value()), trigger, now, env, fuel)
    {
      hide RunSet;
      if running.Some? {
        var next := running.value.nextAttemptAt;
        if next.Some? && next.value > now && trigger == Auto { return 0, false; }
        calls, died := RunRunning(env, 0, fuel);
        return;
      }
      if !cfg.hasReflector { return 0, false; }
      if |pending| == 0 { return 0, false; }
      if trigger == Auto && |pending| < cfg.minObservations { return 0, false; }
      var setHash := cfg.hash(pending);
      if setHash in processed {
        dropped := dropped + SetOf(pending);
        pending := [];
        return 0, false;
      }
      running := Some(Item(setHash, pending, now, 0, None));
      calls, died := RunRunning(env, 0, fuel);
    }
  }

  // ---- how often the model is called ------------------------------------------------------------

  function CeilLog2(n: nat): nat {
    if n <= 1 then 0 else 1 + CeilLog2((n + 1) / 2)
  }

  /** It is the least power of two that reaches n. */
  lemma {:induction false} CeilLog2IsLeast(n: nat)
    requires n >= 1
    ensures n <= Pow2(CeilLog2(n))
    ensures n > 1 ==> Pow2(CeilLog2(n) - 1) < n
  {
    if n > 1 {
      CeilLog2IsLeast((n + 1) / 2);
      if (n + 1) / 2 > 1 {
        assert Pow2(CeilLog2(n) - 1) == 2 * Pow2(CeilLog2((n + 1) / 2) - 1);
      }
    }
  }

  lemma {:induction false} CeilLog2Grows(m: nat, n: nat)
    requires m <= n
    ensures CeilLog2(m) <= CeilLog2(n)
  {
    if m > 1 { CeilLog2Grows((m + 1) / 2, (n + 1) / 2); }
  }

  /** One run over n records makes at most 1 + ceil(log2 n) model calls, whatever arrives meanwhile. */
  lemma {:induction false} ModelCallsAreBounded(cfg: Config, s: Refl, env: Env, k: nat, fuel: nat)
    requires s.running.Some?
    ensures RunSet(cfg, s, env, k, fuel).calls <= 1 + CeilLog2(|s.running.value.recordIds|)
    decreases |s.running.value.recordIds|, 2
  {
    if cfg.hasReflector {
      CeilLog2Grows(|Rederive(cfg, s).running.value.recordIds|, |s.running.value.recordIds|);
      hide Rederive, Attempt;
      AttemptCalls(cfg, Rederive(cfg, s), env, k, fuel);
    }
  }

  lemma AttemptCalls(cfg: Config, s: Refl, env: Env, k: nat, fuel: nat)
    requires s.running.Some?
    ensures Attempt(cfg, s, env, k, fuel).calls <= 1 + CeilLog2(|s.running.value.recordIds|)
    decreases |s.running.value.recordIds|, 1
  {
    hide Returned, ArmRetry, NoteAll;
    if fuel > 0 { ReturnedCalls(cfg, NoteAll(cfg, s, env.arrivals(k)), env, k, fuel - 1); }
  }

  lemma ReturnedCalls(cfg: Config, s: Refl, env: Env, k: nat, fuel: nat)
    requires s.running.Some?
    ensures Returned(cfg, s, env, k, fuel).calls <= CeilLog2(|s.running.value.recordIds|)
    decreases |s.running.value.recordIds|, 0
  {
    hide RunSet, ArmRetry, Accept;
    if |s.running.value.recordIds| > 1 {
      ModelCallsAreBounded(cfg, SplitInHalf(cfg, s, env.clock(k)), env, k + 1, fuel);
    }
  }

  // ---- where every record is -------------------------------------------------------------------

  /** A notified record is pending, summarised or parked; what was dropped had been summarised. */
  ghost predicate Kept(s: Refl) {
    && (forall id :: id in s.notified <==> id in s.pending || id in s.summarised || id in s.parked)
    && (forall id :: id in s.seen ==> id in s.notified)
    && s.dropped <= s.summarised
  }

  ghost predicate RunningOk(cfg: Config, s: Refl) {
    s.running.Some? ==>
      && (forall id :: id in s.running.value.recordIds ==> id in s.pending)
      && s.running.value.setHash == cfg.hash(s.running.value.recordIds)
  }

  ghost predicate Hashed(cfg: Config, done: set<string>, h: string) {
    exists ids: seq<string> :: h == cfg.hash(ids) && forall id :: id in ids ==> id in done
  }

  /** Every processed hash is that of a set already summarised. */
  ghost predicate ProcessedOk(cfg: Config, s: Refl) {
    forall h :: h in s.processed ==> Hashed(cfg, s.summarised, h)
  }

  ghost predicate FinishedFor(jobs: seq<Job>, id: string) {
    exists j :: j in jobs && j.finished && id in j.recordIds
  }

  /** The summarised records are those of the finished jobs. */
  ghost predicate JobsOk(s: Refl) {
    && (forall id :: id in s.summarised <==> FinishedFor(s.jobs, id))
    && (forall j, id :: j in s.jobs && id in j.recordIds ==> id in s.notified)
  }

  /** No record is in two places, and none of a finished job is in a later one. */
  ghost predicate Apart(s: Refl) {
    && (forall id :: id in s.pending ==> id !in s.summarised && id !in s.parked)
    && s.summarised !! s.parked && s.dropped == {}
    && (forall i, k :: 0 <= i < k < |s.jobs| && s.jobs[i].finished ==> forall id :: id in s.jobs[i].recordIds ==> id !in s.jobs[k].recordIds)
  }

  /** `once`: no record was notified again after it was forgotten. */
  ghost predicate Inv(cfg: Config, s: Refl, once: bool) {
    Kept(s) && RunningOk(cfg, s) && ProcessedOk(cfg, s) && JobsOk(s) && (once ==> Apart(s))
  }

  /** A record is notified once, or again while it is still remembered. */
  ghost predicate Admissible(s: Refl, id: string) {
    id in s.seen || id !in s.notified
  }

  ghost predicate AllAdmissible(cfg: Config, s: Refl, ids: seq<string>)
    decreases |ids|
  {
    ids != [] ==> AllAdmissible(cfg, s, ids[..|ids| - 1]) && Admissible(NoteAll(cfg, s, ids[..|ids| - 1]), ids[|ids| - 1])
  }

  lemma NoteKeepsInv(cfg: Config, s: Refl, id: string, once: bool)
    requires Inv(cfg, s, once) && (once ==> Admissible(s, id))
    ensures Inv(cfg, NoteAccepted(cfg, s, id), once)
  {
    hide Hashed, FinishedFor;
    var t := NoteAccepted(cfg, s, id);
    assert forall x :: x in t.seen ==> x in s.seen || x == id;
    assert forall x :: x in s.pending + [id] <==> x in s.pending || x == id;
  }

  lemma {:induction false} NoteAllKeepsInv(cfg: Config, s: Refl, ids: seq<string>, once: bool)
    requires Inv(cfg, s, once) && (once ==> AllAdmissible(cfg, s, ids))
    ensures Inv(cfg, NoteAll(cfg, s, ids), once)
    decreases |ids|
  {
    hide Inv, NoteAccepted, Admissible;
    if ids != [] {
      NoteAllKeepsInv(cfg, s, ids[..|ids| - 1], once);
      NoteKeepsInv(cfg, NoteAll(cfg, s, ids[..|ids| - 1]), ids[|ids| - 1], once);
    }
  }

  lemma {:induction false} FilterAllPresent(ids: seq<string>, keep: string -> bool)
    requires forall id :: id in ids ==> keep(id)
    ensures Filter(ids, keep) == ids
  {
    if ids != [] {
      assert ids[0] in ids && forall id :: id in ids[1..] ==> id in ids;
      FilterAllPresent(ids[1..], keep);
    }
  }

  lemma RederiveDoesNothing(cfg: Config, s: Refl, once: bool)
    requires Inv(cfg, s, once) && s.running.Some?
    ensures Rederive(cfg, s) == s
  {
    FilterAllPresent(s.running.value.recordIds, Among(s.pending));
  }

  lemma RetryKeepsInv(cfg: Config, s: Refl, now: int, once: bool)
    requires Inv(cfg, s, once) && s.running.Some?
    ensures Inv(cfg, ArmRetry(cfg, s, now), once)
  {
    hide Hashed, Pow2, FinishedFor;
  }

  lemma JobJoins(s: Refl, job: Job, once: bool)
    requires Kept(s) && JobsOk(s) && (once ==> Apart(s)) && forall id :: id in job.recordIds ==> id in s.pending
    ensures var t := s.(jobs := s.jobs + [job], summarised := if job.finished then s.summarised + SetOf(job.recordIds) else s.summarised);
            JobsOk(t) && (once ==> forall i, k :: 0 <= i < k < |t.jobs| && t.jobs[i].finished ==>
              forall id :: id in t.jobs[i].recordIds ==> id !in t.jobs[k].recordIds)
  {
    var t := s.(jobs := s.jobs + [job], summarised := if job.finished then s.summarised + SetOf(job.recordIds) else s.summarised);
    assert forall j :: j in t.jobs <==> j in s.jobs || j == job;
    forall id ensures FinishedFor(t.jobs, id) <==> FinishedFor(s.jobs, id) || (job.finished && id in job.recordIds) {
      if FinishedFor(s.jobs, id) {
        var j :| j in s.jobs && j.finished && id in j.recordIds;
        assert j in t.jobs;
      }
      assert job in t.jobs;
    }
    if once {
      forall i | 0 <= i < |s.jobs| && s.jobs[i].finished ensures forall id :: id in s.jobs[i].recordIds ==> id !in job.recordIds {
        assert s.jobs[i] in s.jobs;
        forall id | id in s.jobs[i].recordIds ensures id !in job.recordIds {
          assert FinishedFor(s.jobs, id);
        }
      }
    }
    hide FinishedFor;
  }

  lemma AcceptKeepsInv(cfg: Config, s: Refl, q: Queued, once: bool)
    requires Inv(cfg, s, once) && s.running.Some?
    ensures Inv(cfg, Accept(cfg, s, q), once)
  {
    var item, t := s.running.value, Accept(cfg, s, q);
    if !q.NoJob? {
      JobJoins(s, Job(item.setHash, item.recordIds, q.AllJobs?), once);
      forall h | h in t.processed ensures Hashed(cfg, t.summarised, h) {
        if h !in s.processed {
          assert h == cfg.hash(item.recordIds);
          assert forall id :: id in item.recordIds ==> id in t.summarised;
        }
      }
    }
    hide Hashed, FinishedFor, JobsOk;
  }

  lemma SplitKeepsInv(cfg: Config, s: Refl, now: int, once: bool)
    requires Inv(cfg, s, once) && s.running.Some? && |s.running.value.recordIds| > 1
    ensures Inv(cfg, SplitInHalf(cfg, s, now), once)
  {
    var ids := s.running.value.recordIds;
    assert forall id :: id in ids[..(|ids| + 1) / 2] ==> id in ids;
    hide Hashed, Kept, FinishedFor;
  }

  /** Everything that arrives during a run is admissible when it arrives. */
  ghost predicate RunAdmissible(cfg: Config, s: Refl, env: Env, k: nat, fuel: nat)
    requires s.running.Some?
    decreases |s.running.value.recordIds|
  {
    fuel > 0 && cfg.hasReflector ==>
      && AllAdmissible(cfg, s, env.arrivals(k))
      && (env.reply(k) == BudgetExceeded && |s.running.value.recordIds| > 1 ==>
            RunAdmissible(cfg, SplitInHalf(cfg, NoteAll(cfg, s, env.arrivals(k)), env.clock(k)), env, k + 1, fuel - 1))
  }

  lemma {:induction false} RunSetKeepsInv(cfg: Config, s: Refl, env: Env, k: nat, fuel: nat, once: bool)
    requires Inv(cfg, s, once) && s.running.Some? && (once ==> RunAdmissible(cfg, s, env, k, fuel))
    ensures Inv(cfg, RunSet(cfg, s, env, k, fuel).state, once)
    decreases |s.running.value.recordIds|, 2
  {
    if cfg.hasReflector {
      RederiveDoesNothing(cfg, s, once);
      hide Inv, Attempt, Rederive, RunAdmissible;
      AttemptKeepsInv(cfg, s, env, k, fuel, once);
    }
  }

  lemma AttemptKeepsInv(cfg: Config, s: Refl, env: Env, k: nat, fuel: nat, once: bool)
    requires Inv(cfg, s, once) && s.running.Some? && cfg.hasReflector && (once ==> RunAdmissible(cfg, s, env, k, fuel))
    ensures Inv(cfg, Attempt(cfg, s, env, k, fuel).state, once)
    decreases |s.running.value.recordIds|, 1
  {
    hide Inv, Returned, NoteAll, AllAdmissible;
    ClearKeepsInv(cfg, s, once);
    RetryKeepsInv(cfg, s, env.clock(k), once);
    if fuel > 0 && s.running.value.recordIds != [] {
      NoteAllKeepsInv(cfg, s, env.arrivals(k), once);
      ReturnedKeepsInv(cfg, NoteAll(cfg, s, env.arrivals(k)), env, k, fuel - 1, once);
    }
  }

  lemma ReturnedKeepsInv(cfg: Config, s: Refl, env: Env, k: nat, fuel: nat, once: bool)
    requires Inv(cfg, s, once) && s.running.Some?
    requires once && env.reply(k) == BudgetExceeded && |s.running.value.recordIds| > 1 ==>
               RunAdmissible(cfg, SplitInHalf(cfg, s, env.clock(k)), env, k + 1, fuel)
    ensures Inv(cfg, Returned(cfg, s, env, k, fuel).state, once)
    decreases |s.running.value.recordIds|, 0
  {
    hide Inv, RunSet, RunAdmissible;
    RetryKeepsInv(cfg, s, env.clock(k), once);
    AcceptKeepsInv(cfg, s, env.queued(k), once);
    if env.reply(k) == BudgetExceeded && |s.running.value.recordIds| > 1 {
      SplitKeepsInv(cfg, s, env.clock(k), once);
      RunSetKeepsInv(cfg, SplitInHalf(cfg, s, env.clock(k)), env, k + 1, fuel, once);
    }
  }

  lemma ClearKeepsInv(cfg: Config, s: Refl, once: bool)
    requires Inv(cfg, s, once)
    ensures Inv(cfg, s.(running := None), once)
  {
    hide Hashed, FinishedFor;
  }

  // ---- the guard against repeats ------------------------------------------------------------------

  /** The identity of a set determines its records. */
  ghost predicate SetIdentity(cfg: Config) {
    forall a: seq<string>, b: seq<string> :: cfg.hash(a) == cfg.hash(b) ==> forall id :: id in a <==> id in b
  }

  /** A pool whose set was processed holds only records that were summarised before. */
  lemma GuardDropsOnlySummarised(cfg: Config, s: Refl, once: bool)
    requires Inv(cfg, s, once) && SetIdentity(cfg) && cfg.hash(s.pending) in s.processed
    ensures forall id :: id in s.pending ==> id in s.summarised
  {
    var ids: seq<string> :| cfg.hash(s.pending) == cfg.hash(ids) && forall id :: id in ids ==> id in s.summarised;
    hide Kept, RunningOk, JobsOk;
  }

  lemma DropKeepsInv(cfg: Config, s: Refl, once: bool)
    requires Inv(cfg, s, once) && SetIdentity(cfg) && s.running.None? && s.pending != []
    requires cfg.hash(s.pending) in s.processed
    ensures Inv(cfg, s.(pending := [], dropped := s.dropped + SetOf(s.pending)), once)
  {
    GuardDropsOnlySummarised(cfg, s, once);
    assert s.pending[0] in s.pending;
    hide Hashed, FinishedFor;
  }

  datatype Event = Note(id: string) | Trigger(trigger: Trigger, now: int, env: Env, fuel: nat)

  function Apply(cfg: Config, s: Refl, e: Event): Refl {
    match e
    case Note(id) => NoteAccepted(cfg, s, id)
    case Trigger(trigger, now, env, fuel) => RunOnce(cfg, s, trigger, now, env, fuel).state
  }

  function Run(cfg: Config, s: Refl, events: seq<Event>): Refl
    decreases |events|
  {
    if events == [] then s else Run(cfg, Apply(cfg, s, events[0]), events[1..])
  }

  /** The set a trigger would put at the model. */
  function Started(cfg: Config, s: Refl, now: int): Refl {
    if s.running.Some? then s else s.(running := Some(Item(cfg.hash(s.pending), s.pending, now, 0, None)))
  }

  ghost predicate EventAdmissible(cfg: Config, s: Refl, e: Event) {
    match e
    case Note(id) => Admissible(s, id)
    case Trigger(_, now, env, fuel) => RunAdmissible(cfg, Started(cfg, s, now), env, 0, fuel)
  }

  ghost predicate DistinctNotifications(cfg: Config, s: Refl, events: seq<Event>)
    decreases |events|
  {
    events != [] ==> EventAdmissible(cfg, s, events[0]) && DistinctNotifications(cfg, Apply(cfg, s, events[0]), events[1..])
  }

  lemma StartedKeepsInv(cfg: Config, s: Refl, now: int, once: bool)
    requires Inv(cfg, s, once)
    ensures Inv(cfg, Started(cfg, s, now), once)
  {
    hide Hashed, FinishedFor;
  }

  lemma TriggerKeepsInv(cfg: Config, s: Refl, e: Event, once: bool)
    requires Inv(cfg, s, once) && SetIdentity(cfg) && e.Trigger? && (once ==> EventAdmissible(cfg, s, e))
    ensures Inv(cfg, Apply(cfg, s, e), once)
  {
    hide Inv, RunSet, RunAdmissible, SetIdentity;
    StartedKeepsInv(cfg, s, e.now, once);
    RunSetKeepsInv(cfg, Started(cfg, s, e.now), e.env, 0, e.fuel, once);
    if s.running.None? && s.pending != [] && cfg.hash(s.pending) in s.processed {
      DropKeepsInv(cfg, s, once);
    }
  }

  lemma {:induction false} RunKeepsInv(cfg: Config, s: Refl, events: seq<Event>, once: bool)
    requires Inv(cfg, s, once) && SetIdentity(cfg) && (once ==> DistinctNotifications(cfg, s, events))
    ensures Inv(cfg, Run(cfg, s, events), once)
    decreases |events|
  {
    hide Inv, SetIdentity, RunAdmissible;
    if events != [] {
      match events[0] {
        case Note(id) => NoteKeepsInv(cfg, s, id, once);
        case Trigger(_, _, _, _) => TriggerKeepsInv(cfg, s, events[0], once);
      }
      hide Apply;
      RunKeepsInv(cfg, Apply(cfg, s, events[0]), events[1..], once);
    }
  }

  lemma FreshInv(cfg: Config, once: bool)
    ensures Inv(cfg, Fresh, once)
  {
  }

  /**
   * Over all runs, repeated notifications and deaths at any model call or inside acceptance included:
   * a notified record is pending, summarised or parked; a summarised one is in a finished job; and the
   * already-processed guard drops only records that were summarised before.
   */
  lemma NothingIsEverLost(cfg: Config, events: seq<Event>, id: string)
    requires SetIdentity(cfg)
    ensures var s := Run(cfg, Fresh, events);
            && (id in s.notified <==> id in s.pending || id in s.summarised || id in s.parked)
            && (id in s.summarised <==> FinishedFor(s.jobs, id))
            && (id in s.dropped ==> id in s.summarised)
  {
    FreshInv(cfg, false);
    RunKeepsInv(cfg, Fresh, events, false);
    hide Hashed, ProcessedOk, FinishedFor, Run;
  }

  /**
   * In every run with distinct notifications each record that was notified is in exactly one of
   * pending, summarised and parked; none is dropped, and splitting a set never loses its tail.
   */
  lemma EveryRecordIsSomewhere(cfg: Config, events: seq<Event>, id: string)
    requires SetIdentity(cfg) && DistinctNotifications(cfg, Fresh, events)
    ensures var s := Run(cfg, Fresh, events);
            && (id in s.notified <==> id in s.pending || id in s.summarised || id in s.parked)
            && !(id in s.pending && id in s.summarised) && !(id in s.pending && id in s.parked)
            && !(id in s.summarised && id in s.parked)
            && s.dropped == {}
  {
    FreshInv(cfg, true);
    RunKeepsInv(cfg, Fresh, events, true);
    hide Hashed, ProcessedOk, FinishedFor, Run;
  }

  /** The records of a finished job are summarised for good: never pending, parked or named again. */
  lemma FinishedIsForGood(cfg: Config, events: seq<Event>, i: nat, id: string)
    requires SetIdentity(cfg) && DistinctNotifications(cfg, Fresh, events)
    requires var jobs := Run(cfg, Fresh, events).jobs; i < |jobs| && jobs[i].finished && id in jobs[i].recordIds
    ensures var s := Run(cfg, Fresh, events);
            && id in s.summarised && id !in s.parked && id !in s.pending
            && forall k :: i < k < |s.jobs| ==> id !in s.jobs[k].recordIds
  {
    FreshInv(cfg, true);
    RunKeepsInv(cfg, Fresh, events, true);
    var s := Run(cfg, Fresh, events);
    hide Run, Hashed, ProcessedOk;
    assert s.jobs[i] in s.jobs && FinishedFor(s.jobs, id);
  }

  // ---- what an acceptance that stops half way leads to ---------------------------------------------

  /** The set a run over `ids` gets an answer for, and how its acceptance ends; `None` without an answer. */
  function Reached(cfg: Config, ids: seq<string>, env: Env, k: nat, fuel: nat): (r: Option<(Queued, seq<string>)>)
    ensures r.Some? ==> r.value.1 != [] && r.value.1 <= ids
    decreases |ids|
  {
    if !cfg.hasReflector || ids == [] || fuel == 0 || exists id :: id in ids && !env.redactOk(id) then None
    else
      match env.reply(k)
      case Answers => Some((env.queued(k), ids))
      case Fails => None
      case BudgetExceeded => if |ids| > 1 then Reached(cfg, ids[..(|ids| + 1) / 2], env, k + 1, fuel - 1) else None
  }

  /** The acceptance an event comes to, if any. */
  function Accepts(cfg: Config, s: Refl, e: Event): (r: Option<(Queued, seq<string>)>)
    ensures r.Some? ==> r.value.1 != []
  {
    match e
    case Note(_) => None
    case Trigger(trigger, now, env, fuel) =>
      if s.running.Some? then
        var next := s.running.value.nextAttemptAt;
        if next.Some? && next.value > now && trigger == Auto then None else Reached(cfg, s.running.value.recordIds, env, 0, fuel)
      else if (trigger == Auto && |s.pending| < cfg.minObservations) || cfg.hash(s.pending) in s.processed then None
      else Reached(cfg, s.pending, env, 0, fuel)
  }

  function JobsOf(cfg: Config, got: Option<(Queued, seq<string>)>): seq<Job> {
    if got.None? || got.value.0.NoJob? then [] else [Job(cfg.hash(got.value.1), got.value.1, got.value.0.AllJobs?)]
  }

  /** A set is at work that starts as `ids` does. */
  ghost predicate AtWork(s: Refl, ids: seq<string>) {
    s.running.Some? && s.running.value.recordIds != [] && s.running.value.recordIds <= ids
  }

  /** What a run over the nonempty set `ids` makes of it. */
  ghost predicate Settles(cfg: Config, s: Refl, t: Refl, ids: seq<string>, got: Option<(Queued, seq<string>)>) {
    && t.jobs == s.jobs + JobsOf(cfg, got)
    && s.parked <= t.parked
    && (got.Some? ==> got.value.1 <= ids)
    && (got.Some? ==> if got.value.0.AllJobs? then t.running.None? else AtWork(t, got.value.1) && t.running.value.recordIds == got.value.1)
    && (got.None? && ids != [] ==> AtWork(t, ids) || (t.running.None? && ids[0] in t.parked))
  }

  lemma RetrySettles(cfg: Config, s: Refl, now: int)
    requires s.running.Some?
    ensures Settles(cfg, s, ArmRetry(cfg, s, now), s.running.value.recordIds, None)
  {
    hide Filter, Pow2;
    var ids := s.running.value.recordIds;
    assert ids != [] ==> ids[0] in ids;
  }

  lemma AcceptSettles(cfg: Config, s: Refl, q: Queued)
    requires s.running.Some? && Inv(cfg, s, false) && s.running.value.recordIds != []
    ensures Settles(cfg, s, Accept(cfg, s, q), s.running.value.recordIds, Some((q, s.running.value.recordIds)))
  {
    hide Filter, Kept, ProcessedOk, JobsOk;
  }

  lemma {:induction false} RunSetSettles(cfg: Config, s: Refl, env: Env, k: nat, fuel: nat)
    requires Inv(cfg, s, false) && s.running.Some? && s.running.value.recordIds != []
    ensures var ids := s.running.value.recordIds;
            Settles(cfg, s, RunSet(cfg, s, env, k, fuel).state, ids, Reached(cfg, ids, env, k, fuel))
    decreases |s.running.value.recordIds|, 2
  {
    if cfg.hasReflector {
      RederiveDoesNothing(cfg, s, false);
      hide Inv, Attempt, Rederive, Reached, Settles;
      AttemptSettles(cfg, s, env, k, fuel);
    }
  }

  lemma AttemptSettles(cfg: Config, s: Refl, env: Env, k: nat, fuel: nat)
    requires Inv(cfg, s, false) && s.running.Some? && s.running.value.recordIds != [] && cfg.hasReflector
    ensures var ids := s.running.value.recordIds;
            Settles(cfg, s, Attempt(cfg, s, env, k, fuel).state, ids, Reached(cfg, ids, env, k, fuel))
    decreases |s.running.value.recordIds|, 1
  {
    hide Inv, Returned, NoteAll, ArmRetry;
    RetrySettles(cfg, s, env.clock(k));
    var ids := s.running.value.recordIds;
    if fuel > 0 && forall id :: id in ids ==> env.redactOk(id) {
      NoteAllKeepsInv(cfg, s, env.arrivals(k), false);
      ReturnedSettles(cfg, NoteAll(cfg, s, env.arrivals(k)), env, k, fuel);
    }
  }

  lemma ReturnedSettles(cfg: Config, s: Refl, env: Env, k: nat, fuel: nat)
    requires Inv(cfg, s, false) && s.running.Some? && s.running.value.recordIds != [] && cfg.hasReflector && fuel > 0
    requires forall id :: id in s.running.value.recordIds ==> env.redactOk(id)
    ensures var ids := s.running.value.recordIds;
            Settles(cfg, s, Returned(cfg, s, env, k, fuel - 1).state, ids, Reached(cfg, ids, env, k, fuel))
    decreases |s.running.value.recordIds|, 0
  {
    hide Inv, RunSet, ArmRetry, Accept, Settles;
    var ids := s.running.value.recordIds;
    RetrySettles(cfg, s, env.clock(k));
    AcceptSettles(cfg, s, env.queued(k));
    if env.reply(k) == BudgetExceeded && |ids| > 1 {
      var half := SplitInHalf(cfg, s, env.clock(k));
      SplitKeepsInv(cfg, s, env.clock(k), false);
      RunSetSettles(cfg, half, env, k + 1, fuel - 1);
      HalfSettles(cfg, s, half, RunSet(cfg, half, env, k + 1, fuel - 1).state, Reached(cfg, half.running.value.recordIds, env, k + 1, fuel - 1));
    }
  }

  lemma HalfSettles(cfg: Config, s: Refl, half: Refl, t: Refl, got: Option<(Queued, seq<string>)>)
    requires s.running.Some? && half.running.Some? && half.running.value.recordIds != []
    requires half.running.value.recordIds <= s.running.value.recordIds && half.jobs == s.jobs && half.parked == s.parked
    requires Settles(cfg, half, t, half.running.value.recordIds, got)
    ensures Settles(cfg, s, t, s.running.value.recordIds, got)
  {
  }

  lemma ApplySettles(cfg: Config, s: Refl, e: Event)
    requires Inv(cfg, s, false)
    ensures Apply(cfg, s, e).jobs == s.jobs + JobsOf(cfg, Accepts(cfg, s, e))
    ensures s.parked <= Apply(cfg, s, e).parked
    ensures s.running.Some? && s.running.value.recordIds != [] ==>
              Settles(cfg, s, Apply(cfg, s, e), s.running.value.recordIds, Accepts(cfg, s, e))
    ensures Accepts(cfg, s, e).Some? && Accepts(cfg, s, e).value.0.ReflectionOnly? ==>
              AtWork(Apply(cfg, s, e), Accepts(cfg, s, e).value.1)
              && Apply(cfg, s, e).running.value.recordIds == Accepts(cfg, s, e).value.1
  {
    hide RunSet, Inv;
    match e
    case Note(_) =>
    case Trigger(_, now, env, fuel) =>
      var started := Started(cfg, s, now);
      StartedKeepsInv(cfg, s, now, false);
      if started.running.value.recordIds != [] {
        RunSetSettles(cfg, started, env, 0, fuel);
      } else {
        NothingToRun(cfg, started, env, fuel);
      }
  }

  lemma NothingToRun(cfg: Config, s: Refl, env: Env, fuel: nat)
    requires s.running.Some? && s.running.value.recordIds == []
    ensures Reached(cfg, [], env, 0, fuel).None?
    ensures RunSet(cfg, s, env, 0, fuel).state.jobs == s.jobs && RunSet(cfg, s, env, 0, fuel).state.parked == s.parked
  {
  }

  /** No acceptance of the run stops behind the reflection job of a set that holds the record. */
  ghost predicate NeverPartly(cfg: Config, s: Refl, events: seq<Event>, id: string)
    decreases |events|
  {
    events != [] ==>
      && (var got := Accepts(cfg, s, events[0]); got.Some? && got.value.0.ReflectionOnly? ==> id !in got.value.1)
      && NeverPartly(cfg, Apply(cfg, s, events[0]), events[1..], id)
  }

  ghost predicate OnlyFinishedName(jobs: seq<Job>, id: string) {
    forall j :: j in jobs && id in j.recordIds ==> j.finished
  }

  lemma {:induction false} NeverPartlyFinishes(cfg: Config, s: Refl, events: seq<Event>, id: string)
    requires Inv(cfg, s, false) && SetIdentity(cfg) && NeverPartly(cfg, s, events, id) && OnlyFinishedName(s.jobs, id)
    ensures OnlyFinishedName(Run(cfg, s, events).jobs, id)
    decreases |events|
  {
    hide Inv, SetIdentity, Apply, Accepts;
    if events != [] {
      ApplySettles(cfg, s, events[0]);
      RunKeepsInv(cfg, s, [events[0]], false);
      assert Run(cfg, s, [events[0]]) == Run(cfg, Apply(cfg, s, events[0]), []);
      NeverPartlyFinishes(cfg, Apply(cfg, s, events[0]), events[1..], id);
    }
  }

  /** With distinct notifications, a record is named once unless an acceptance of it stopped half way. */
  lemma NamedOnceUnlessPartly(cfg: Config, events: seq<Event>, id: string)
    requires SetIdentity(cfg) && DistinctNotifications(cfg, Fresh, events) && NeverPartly(cfg, Fresh, events, id)
    ensures var jobs := Run(cfg, Fresh, events).jobs;
            forall i, k :: 0 <= i < k < |jobs| ==> !(id in jobs[i].recordIds && id in jobs[k].recordIds)
  {
    hide NeverPartly, DistinctNotifications, SetIdentity, Run, Inv;
    FreshInv(cfg, false);
    NeverPartlyFinishes(cfg, Fresh, events, id);
    var jobs := Run(cfg, Fresh, events).jobs;
    forall i, k | 0 <= i < k < |jobs| && id in jobs[i].recordIds ensures id !in jobs[k].recordIds {
      assert jobs[i] in jobs;
      FinishedIsForGood(cfg, events, i, id);
    }
  }

  /** No job is queued. */
  ghost predicate Quiet(cfg: Config, s: Refl, events: seq<Event>)
    decreases |events|
  {
    events != [] ==> JobsOf(cfg, Accepts(cfg, s, events[0])) == [] && Quiet(cfg, Apply(cfg, s, events[0]), events[1..])
  }

  /** The set is still at work, or what was left of it was parked. */
  ghost predicate Held(s: Refl, ids: seq<string>)
    requires ids != []
  {
    AtWork(s, ids) || ids[0] in s.parked
  }

  lemma QuietStep(cfg: Config, s: Refl, e: Event, ids: seq<string>)
    requires Inv(cfg, s, false) && ids != [] && Held(s, ids) && JobsOf(cfg, Accepts(cfg, s, e)) == []
    ensures Apply(cfg, s, e).jobs == s.jobs && Held(Apply(cfg, s, e), ids)
  {
    hide Inv, Apply, Accepts;
    ApplySettles(cfg, s, e);
  }

  lemma {:induction false} QuietKeepsTheSet(cfg: Config, s: Refl, events: seq<Event>, ids: seq<string>)
    requires Inv(cfg, s, false) && SetIdentity(cfg) && Quiet(cfg, s, events) && ids != [] && Held(s, ids)
    ensures Run(cfg, s, events).jobs == s.jobs && Held(Run(cfg, s, events), ids)
    decreases |events|
  {
    hide Inv, SetIdentity, Apply, Accepts, JobsOf, Held;
    if events != [] {
      QuietStep(cfg, s, events[0], ids);
      RunKeepsInv(cfg, s, [events[0]], false);
      assert Run(cfg, s, [events[0]]) == Run(cfg, Apply(cfg, s, events[0]), []);
      QuietKeepsTheSet(cfg, Apply(cfg, s, events[0]), events[1..], ids);
    }
  }

  lemma {:induction false} RunAppend(cfg: Config, s: Refl, a: seq<Event>, b: seq<Event>)
    ensures Run(cfg, s, a + b) == Run(cfg, Run(cfg, s, a), b)
    decreases |a|
  {
    hide Apply;
    if a == [] {
      assert a + b == b;
    } else {
      assert (a + b)[1..] == a[1..] + b;
      RunAppend(cfg, Apply(cfg, s, a[0]), a[1..], b);
    }
  }

  /** The acceptance of this event stops behind the reflection job of exactly these records. */
  ghost predicate StopsBehind(cfg: Config, s: Refl, e: Event, ids: seq<string>) {
    exists died :: Accepts(cfg, s, e) == Some((ReflectionOnly(died), ids))
  }

  /**
   * An acceptance that stops behind the reflection job leaves its set at work. Whatever follows, the
   * next job queued names records of that set again exactly when the set was not parked before; the
   * first record of the set stands for it, since splitting keeps it in the half that runs on.
   */
  lemma ReflectedAgainIff(cfg: Config, before: seq<Event>, partly: Event, ids: seq<string>, quiet: seq<Event>, next: Event)
    requires SetIdentity(cfg) && DistinctNotifications(cfg, Fresh, before + [partly] + quiet)
    requires StopsBehind(cfg, Run(cfg, Fresh, before), partly, ids)
    requires Quiet(cfg, Run(cfg, Fresh, before + [partly]), quiet)
    requires JobsOf(cfg, Accepts(cfg, Run(cfg, Fresh, before + [partly] + quiet), next)) != []
    ensures var was := Run(cfg, Fresh, before + [partly] + quiet);
            var n, jobs := |was.jobs|, Apply(cfg, was, next).jobs;
            && ids != [] && n > 0 && |jobs| == n + 1
            && jobs[..n] == was.jobs && jobs[n - 1] == Job(cfg.hash(ids), ids, false)
            && (ids[0] in jobs[n].recordIds <==> ids[0] !in was.parked)
            && (ids[0] !in was.parked ==> jobs[n].recordIds <= ids)
  {
    hide SetIdentity, DistinctNotifications, Inv, Run, Quiet, StopsBehind;
    FreshInv(cfg, true);
    FreshInv(cfg, false);
    RunKeepsInv(cfg, Fresh, before, false);
    RunKeepsInv(cfg, Fresh, before + [partly], false);
    RunKeepsInv(cfg, Fresh, before + [partly] + quiet, true);
    RunAppend(cfg, Fresh, before, [partly]);
    RunAppend(cfg, Fresh, before + [partly], quiet);
    RunOfOne(cfg, Run(cfg, Fresh, before), partly);
    StoppedStaysAtWork(cfg, Run(cfg, Fresh, before), partly, ids);
    QuietKeepsTheSet(cfg, Run(cfg, Fresh, before + [partly]), quiet, ids);
    NextJobNames(cfg, Run(cfg, Fresh, before + [partly] + quiet), next, ids);
  }

  /** In any run, an answer right behind a stopped acceptance names exactly its records a second time. */
  lemma AnsweredAtOnceRepeatsAll(cfg: Config, before: seq<Event>, partly: Event, ids: seq<string>, now: int, env: Env, fuel: nat)
    requires SetIdentity(cfg) && StopsBehind(cfg, Run(cfg, Fresh, before), partly, ids)
    requires fuel > 0 && env.reply(0).Answers? && !env.queued(0).NoJob? && forall id :: id in ids ==> env.redactOk(id)
    ensures var s := Run(cfg, Fresh, before);
            Run(cfg, Fresh, before + [partly, Trigger(ByHand, now, env, fuel)]).jobs ==
            s.jobs + [Job(cfg.hash(ids), ids, false), Job(cfg.hash(ids), ids, env.queued(0).AllJobs?)]
  {
    hide SetIdentity, Inv, Run, Apply, StopsBehind, Accepts;
    var s, next := Run(cfg, Fresh, before), Trigger(ByHand, now, env, fuel);
    FreshInv(cfg, false);
    RunKeepsInv(cfg, Fresh, before, false);
    RunKeepsInv(cfg, Fresh, before + [partly], false);
    RunAppend(cfg, Fresh, before, [partly]);
    RunAppend(cfg, Fresh, before + [partly], [next]);
    RunOfOne(cfg, s, partly);
    RunOfOne(cfg, Apply(cfg, s, partly), next);
    assert before + [partly] + [next] == before + [partly, next];
    StoppedStaysAtWork(cfg, s, partly, ids);
    ApplySettles(cfg, Apply(cfg, s, partly), next);
    AnswerIsAccepted(cfg, Apply(cfg, s, partly), now, env, fuel);
  }

  lemma AnswerIsAccepted(cfg: Config, s: Refl, now: int, env: Env, fuel: nat)
    requires cfg.hasReflector && s.running.Some? && s.running.value.recordIds != [] && fuel > 0 && env.reply(0).Answers?
    requires forall id :: id in s.running.value.recordIds ==> env.redactOk(id)
    ensures Accepts(cfg, s, Trigger(ByHand, now, env, fuel)) == Some((env.queued(0), s.running.value.recordIds))
  {
  }

  lemma RunOfOne(cfg: Config, s: Refl, e: Event)
    ensures Run(cfg, s, [e]) == Apply(cfg, s, e)
  {
    hide Apply;
    assert Run(cfg, s, [e]) == Run(cfg, Apply(cfg, s, e), []);
  }

  lemma StoppedStaysAtWork(cfg: Config, s: Refl, e: Event, ids: seq<string>)
    requires Inv(cfg, s, false) && StopsBehind(cfg, s, e, ids)
    ensures ids != [] && Held(Apply(cfg, s, e), ids)
    ensures cfg.hasReflector && Apply(cfg, s, e).running.Some? && Apply(cfg, s, e).running.value.recordIds == ids
    ensures Apply(cfg, s, e).jobs == s.jobs + [Job(cfg.hash(ids), ids, false)]
  {
    hide Inv, Apply;
    ApplySettles(cfg, s, e);
  }

  lemma NextJobNames(cfg: Config, s: Refl, e: Event, ids: seq<string>)
    requires Inv(cfg, s, true) && ids != [] && Held(s, ids) && JobsOf(cfg, Accepts(cfg, s, e)) != []
    ensures |Apply(cfg, s, e).jobs| == |s.jobs| + 1 && Apply(cfg, s, e).jobs[..|s.jobs|] == s.jobs
    ensures var named := Apply(cfg, s, e).jobs[|s.jobs|].recordIds;
            && (ids[0] in named <==> ids[0] !in s.parked)
            && (ids[0] !in s.parked ==> named <= ids)
  {
    ApplySettles(cfg, s, e);
    AcceptedArePending(cfg, s, e);
    hide Apply, Accepts, Kept, RunningOk, ProcessedOk, JobsOf, JobsOk;
  }

  /** What is accepted is in the pool; with a set at work it is the first part of that set. */
  lemma AcceptedArePending(cfg: Config, s: Refl, e: Event)
    requires Inv(cfg, s, false) && Accepts(cfg, s, e).Some?
    ensures forall id :: id in Accepts(cfg, s, e).value.1 ==> id in s.pending
    ensures s.running.Some? ==> Accepts(cfg, s, e).value.1 <= s.running.value.recordIds
  {
    hide Hashed, FinishedFor, Reached, Kept, JobsOk;
  }

  /** It does happen: the process dies behind the reflection job, and the next answer reflects the set again. */
  lemma DyingBehindTheReflectionRepeatsIt(cfg: Config, id: string, env: Env, retry: Env)
    returns (events: seq<Event>)
    requires cfg.hasReflector && cfg.maxSeenRecords > 0
    requires env.redactOk(id) && env.reply(0).Answers? && env.queued(0) == ReflectionOnly(true) && env.arrivals(0) == []
    requires retry.redactOk(id) && retry.reply(0).Answers? && retry.queued(0).AllJobs? && retry.arrivals(0) == []
    ensures DistinctNotifications(cfg, Fresh, events)
    ensures var jobs := Run(cfg, Fresh, events).jobs;
            |jobs| == 2 && jobs[0].recordIds == jobs[1].recordIds == [id] && !jobs[0].finished && jobs[1].finished
  {
    hide EventAdmissible, Apply, Run, DistinctNotifications;
    var first, again := Trigger(ByHand, 0, env, 1), Trigger(ByHand, 0, retry, 1);
    events := [Note(id), first, again];
    NoteIsAdmissible(cfg, id);
    FirstAnswer(cfg, id, env);
    SecondAnswer(cfg, id, retry);
    var s2, s3 := WithJob(cfg, id), Apply(cfg, WithJob(cfg, id), again);
    ThreeEvents(cfg, Fresh, Noted(id), s2, s3, events);
  }

  function Noted(id: string): Refl {
    Fresh.(seen := [id], pending := [id], notified := {id})
  }

  function AtTheModel(cfg: Config, id: string): Refl {
    Noted(id).(running := Some(Item(cfg.hash([id]), [id], 0, 0, None)))
  }

  function WithJob(cfg: Config, id: string): Refl {
    AtTheModel(cfg, id).(jobs := [Job(cfg.hash([id]), [id], false)])
  }

  lemma NoteIsAdmissible(cfg: Config, id: string)
    requires cfg.maxSeenRecords > 0
    ensures EventAdmissible(cfg, Fresh, Note(id)) && Apply(cfg, Fresh, Note(id)) == Noted(id)
  {
  }

  lemma FirstAnswer(cfg: Config, id: string, env: Env)
    requires cfg.hasReflector
    requires env.redactOk(id) && env.reply(0).Answers? && env.queued(0) == ReflectionOnly(true) && env.arrivals(0) == []
    ensures var e := Trigger(ByHand, 0, env, 1); EventAdmissible(cfg, Noted(id), e) && Apply(cfg, Noted(id), e) == WithJob(cfg, id)
  {
    hide RunSet, RunAdmissible;
    OneAnswer(cfg, AtTheModel(cfg, id), env, id);
  }

  lemma SecondAnswer(cfg: Config, id: string, env: Env)
    requires cfg.hasReflector
    requires env.redactOk(id) && env.reply(0).Answers? && env.queued(0).AllJobs? && env.arrivals(0) == []
    ensures var e := Trigger(ByHand, 0, env, 1);
            && EventAdmissible(cfg, WithJob(cfg, id), e)
            && Apply(cfg, WithJob(cfg, id), e).jobs == [Job(cfg.hash([id]), [id], false), Job(cfg.hash([id]), [id], true)]
  {
    hide RunSet, RunAdmissible, Filter;
    OneAnswer(cfg, WithJob(cfg, id), env, id);
  }

  lemma ThreeEvents(cfg: Config, s0: Refl, s1: Refl, s2: Refl, s3: Refl, es: seq<Event>)
    requires |es| == 3 && Apply(cfg, s0, es[0]) == s1 && Apply(cfg, s1, es[1]) == s2 && Apply(cfg, s2, es[2]) == s3
    requires EventAdmissible(cfg, s0, es[0]) && EventAdmissible(cfg, s1, es[1]) && EventAdmissible(cfg, s2, es[2])
    ensures DistinctNotifications(cfg, s0, es) && Run(cfg, s0, es) == s3
  {
    hide EventAdmissible, Apply;
    assert es[1..][1..] == [es[2]] && es[1..][0] == es[1] && [es[2]][1..] == [];
    assert Run(cfg, s2, [es[2]]) == Run(cfg, s3, []);
    assert DistinctNotifications(cfg, s3, []) && DistinctNotifications(cfg, s2, [es[2]]) && DistinctNotifications(cfg, s1, es[1..]);
  }

  lemma OneAnswer(cfg: Config, s: Refl, env: Env, id: string)
    requires cfg.hasReflector && s.running.Some? && s.running.value.recordIds == [id] && id in s.pending
    requires env.redactOk(id) && env.reply(0).Answers? && env.arrivals(0) == []
    ensures RunSet(cfg, s, env, 0, 1) == Ran(Accept(cfg, s, env.queued(0)), 1, env.queued(0) == ReflectionOnly(true))
    ensures RunAdmissible(cfg, s, env, 0, 1)
  {
    FilterAllPresent([id], Among(s.pending));
    hide Accept;
    assert NoteAll(cfg, s, []) == s;
    assert AllAdmissible(cfg, s, []);
    var accepted := Accept(cfg, s, env.queued(0));
    assert Rederive(cfg, s) == s;
    assert Returned(cfg, s, env, 0, 0) == Ran(accepted, 0, env.queued(0) == ReflectionOnly(true));
    assert Attempt(cfg, s, env, 0, 1) == Ran(accepted, 1, env.queued(0) == ReflectionOnly(true));
  }
}
