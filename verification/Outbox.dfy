/**
 * The durable outbox: one JSONL journal that every mutation rewrites as a whole.
 *
 * `Box` is the value of a store together with the journal file it owns. The functions
 * below say what each operation does to that value; class `DurableOutbox` is the store
 * in its own form, proved against them.
 */
module Outbox {
  import opened Common

  /** The newest journal format this code understands. */
  const SUPPORTED_SCHEMA: nat := 1

  datatype Status = Pending | Quarantined | Acked

  /** What the job's sender will write, or that its payload fails the sender's own check. */
  datatype Payload =
    | RecordDoc(name: string, content: string)       // immutable, deterministic path
    | ManifestDoc(session: string, content: string)  // the one mutable path of a backup
    | Malformed

  /**
   * One queued job. `ticket` is a history variable: the number of enqueue attempts made
   * before this one. No operation branches on it; it names a job across reopens, where
   * `seq` may start again from a smaller number.
   */
  datatype Job = Job(
    ticket: nat,
    seqNo: nat,
    schemaVersion: nat,
    scope: string,
    opId: string,
    idempotencyKey: string,
    payload: Payload,
    target: Option<string>,
    attempts: nat,
    nextAttemptAt: int,
    createdAt: int,
    status: Status,
    lastError: Option<string>,
    ackedAt: Option<int>)

  datatype StoreError =
    | Closed | ReadOnly | Overflow | SecretBearing | BadKey | NotFound | PersistFailed

  /** `bytes` is the length of a job's journal line. */
  datatype Limits = Limits(maxJobs: nat, maxBytes: nat, retentionMs: int, bytes: Job -> nat)

  datatype EnqueueInput = EnqueueInput(
    scope: string,
    idempotencyKey: string,
    payload: Payload,
    opId: Option<string>,
    target: Option<string>)

  /** What the enqueue call reads from outside: clock, fresh id, session target, secret screen. */
  datatype EnqueueContext = EnqueueContext(
    now: int,
    freshId: string,
    sessionTarget: Option<string>,
    looksSecret: bool)

  datatype Change =
    | Acknowledge(at: int)
    | Retry(attempts: nat, nextAttemptAt: int)
    | Quarantine(reason: string)

  datatype Box = Box(
    jobs: seq<Job>,
    nextSeq: nat,
    tickets: nat,
    journal: seq<Job>,
    readOnly: bool,
    closed: bool)

  // ---- reading a job list ----------------------------------------------------

  predicate Supported(j: Job) {
    j.schemaVersion <= SUPPORTED_SCHEMA
  }

  predicate HoldsNewer(jobs: seq<Job>) {
    exists j :: j in jobs && !Supported(j)
  }

  lemma NewerPush(jobs: seq<Job>, job: Job)
    ensures HoldsNewer(jobs + [job]) <==> HoldsNewer(jobs) || !Supported(job)
  {
    assert forall j :: j in jobs + [job] <==> j in jobs || j == job;
  }

  /** The journal body: jobs of a newer format are not written back. */
  function Body(jobs: seq<Job>): seq<Job> {
    Filter(jobs, Supported)
  }

  function PendingJobs(jobs: seq<Job>): seq<Job> {
    Filter(jobs, (j: Job) => j.status == Pending && Supported(j))
  }

  function IndexOfSeq(jobs: seq<Job>, n: nat): (r: Option<nat>)
    ensures r.Some? ==> r.value < |jobs| && jobs[r.value].seqNo == n
    ensures r.Some? ==> forall k :: 0 <= k < r.value ==> jobs[k].seqNo != n
    ensures r.None? ==> forall k :: 0 <= k < |jobs| ==> jobs[k].seqNo != n
  {
    if jobs == [] then None
    else if jobs[0].seqNo == n then Some(0)
    else
      match IndexOfSeq(jobs[1..], n)
      case None => None
      case Some(k) => Some(k + 1)
  }

  function RetainedBytes(jobs: seq<Job>, bytes: Job -> nat): nat {
    if jobs == [] then 0 else RetainedBytes(jobs[..|jobs| - 1], bytes) + bytes(jobs[|jobs| - 1]) + 1
  }

  function CapturePaused(jobs: seq<Job>, limits: Limits): bool {
    |jobs| >= limits.maxJobs || RetainedBytes(jobs, limits.bytes) >= limits.maxBytes
  }

  function NextSeqAfter(jobs: seq<Job>): (n: nat)
    ensures n >= 1
    ensures forall j :: j in jobs ==> j.seqNo < n
  {
    if jobs == [] then 1
    else Max(NextSeqAfter(jobs[..|jobs| - 1]), jobs[|jobs| - 1].seqNo + 1)
  }

  predicate HexKey(key: string) {
    16 <= |key| <= 64 && forall c :: c in key ==> '0' <= c <= '9' || 'a' <= c <= 'f'
  }

  // ---- what each operation does ----------------------------------------------

  /** A rewrite of the journal for `jobs`: memory takes them only when it returns normally. */
  function Commit(b: Box, jobs: seq<Job>, p: Persist): Box {
    match p
    case Written => b.(jobs := jobs, journal := Body(jobs))
    case Fault(renamed) => if renamed then b.(journal := Body(jobs)) else b
  }

  function NewJob(b: Box, input: EnqueueInput, ctx: EnqueueContext): Job {
    Job(b.tickets, b.nextSeq, SUPPORTED_SCHEMA, input.scope,
        if input.opId.Some? then input.opId.value else ctx.freshId,
        input.idempotencyKey, input.payload,
        if input.target.Some? then input.target else ctx.sessionTarget,
        0, ctx.now, ctx.now, Pending, None, None)
  }

  function EnqueueRefusal(b: Box, input: EnqueueInput, ctx: EnqueueContext, limits: Limits): Option<StoreError> {
    if b.closed then Some(Closed)
    else if b.readOnly then Some(ReadOnly)
    else if CapturePaused(b.jobs, limits) then Some(Overflow)
    else if ctx.looksSecret then Some(SecretBearing)
    else if !HexKey(input.idempotencyKey) then Some(BadKey)
    else None
  }

  function Enqueue(b: Box, input: EnqueueInput, ctx: EnqueueContext, limits: Limits, p: Persist)
    : (Box, Result<Job, StoreError>)
  {
    match EnqueueRefusal(b, input, ctx, limits)
    case Some(e) => (b, Err(e))
    case None =>
      var job := NewJob(b, input, ctx);
      var after := Commit(b, b.jobs + [job], p).(tickets := b.tickets + 1);
      if p == Written then (after.(nextSeq := b.nextSeq + 1), Ok(job))
      else (after, Err(PersistFailed))
  }

  function Changed(j: Job, c: Change): Job {
    match c
    case Acknowledge(at) => j.(status := Acked, ackedAt := Some(at))
    case Retry(attempts, at) => j.(attempts := attempts, nextAttemptAt := at)
    case Quarantine(reason) => j.(status := Quarantined, lastError := Some(reason))
  }

  function Mutate(b: Box, n: nat, c: Change, p: Persist): (Box, Option<StoreError>) {
    if b.readOnly then (b, Some(ReadOnly))
    else
      match IndexOfSeq(b.jobs, n)
      case None => (b, Some(NotFound))
      case Some(i) =>
        if !Supported(b.jobs[i]) then (b, Some(NotFound))
        else (Commit(b, b.jobs[i := Changed(b.jobs[i], c)], p), if p == Written then None else Some(PersistFailed))
  }

  function OtherThan(n: nat): Job -> bool {
    (j: Job) => j.seqNo != n
  }

  /** The user discards one quarantined job. There is no read-only guard here. */
  function Discard(b: Box, n: nat, p: Persist): (Box, Option<StoreError>) {
    if exists j :: j in b.jobs && j.seqNo == n && j.status == Quarantined then
      (Commit(b, Filter(b.jobs, OtherThan(n)), p), if p == Written then None else Some(PersistFailed))
    else (b, Some(NotFound))
  }

  /** Retention drops acknowledged jobs only, by age. */
  function KeptAfter(cutoff: int): Job -> bool {
    (j: Job) => j.status != Acked || (if j.ackedAt.Some? then j.ackedAt.value else 0) > cutoff
  }

  function RunRetention(b: Box, now: int, limits: Limits, p: Persist): (Box, Result<nat, StoreError>) {
    if b.readOnly then (b, Ok(0))
    else
      var keep := Filter(b.jobs, KeptAfter(now - limits.retentionMs));
      var removed := |b.jobs| - |keep|;
      if removed == 0 then (b, Ok(0))
      else (Commit(b, keep, p), if p == Written then Ok(removed) else Err(PersistFailed))
  }

  /** Opening a journal file, also after a crash: memory is exactly what the file holds. */
  function Load(journal: seq<Job>, tickets: nat): Box {
    Box(journal, NextSeqAfter(journal), tickets, journal, HoldsNewer(journal), false)
  }

  predicate HasOpId(jobs: seq<Job>, opId: string) {
    exists j :: j in jobs && j.opId == opId
  }

  // ---- what one operation promises ---------------------------------------------

  /** Numbers to come are unused, and only a read-only store holds jobs of a newer format. */
  ghost predicate Numbered(b: Box) {
    (forall j :: j in b.jobs ==> j.seqNo < b.nextSeq) && (!b.readOnly ==> forall j :: j in b.jobs ==> Supported(j))
  }

  datatype Operation =
    | Reopening(tickets: nat)
    | Enqueueing(input: EnqueueInput, ctx: EnqueueContext, limits: Limits, persist: Persist)
    | Changing(n: nat, change: Change, persist: Persist)
    | Discarding(n: nat, persist: Persist)
    | Retaining(now: int, limits: Limits, persist: Persist)

  function Do(b: Box, op: Operation): Box {
    match op
    case Reopening(tickets) => Load(b.journal, tickets)
    case Enqueueing(input, ctx, limits, p) => Enqueue(b, input, ctx, limits, p).0
    case Changing(n, c, p) => Mutate(b, n, c, p).0
    case Discarding(n, p) => Discard(b, n, p).0
    case Retaining(now, limits, p) => RunRetention(b, now, limits, p).0
  }

  lemma ChangedStaysNumbered(b: Box, n: nat, c: Change, p: Persist)
    requires Numbered(b)
    ensures Numbered(Mutate(b, n, c, p).0)
  {
    hide Body;
    var i := IndexOfSeq(b.jobs, n);
    if i.Some? {
      var changed := Changed(b.jobs[i.value], c);
      assert b.jobs[i.value] in b.jobs;
      assert forall j :: j in b.jobs[i.value := changed] ==> j in b.jobs || j == changed;
    }
  }

  lemma OperationKeepsNumbered(b: Box, op: Operation)
    requires Numbered(b)
    ensures Numbered(Do(b, op))
  {
    hide Body, EnqueueRefusal, NextSeqAfter, Mutate, KeptAfter, OtherThan;
    match op {
      case Changing(n, c, p) => ChangedStaysNumbered(b, n, c, p);
      case Enqueueing(input, ctx, limits, p) =>
        var job := NewJob(b, input, ctx);
        assert forall j :: j in b.jobs + [job] ==> j in b.jobs || j == job;
      case _ =>
    }
  }

  /** Whatever the file held at the start, every run of operations and faults leaves a numbered store. */
  lemma {:induction false} StoresStayNumbered(journal: seq<Job>, ops: seq<Operation>)
    ensures Numbered(DoAll(Load(journal, 0), ops))
  {
    if ops != [] {
      StoresStayNumbered(journal, ops[..|ops| - 1]);
      OperationKeepsNumbered(DoAll(Load(journal, 0), ops[..|ops| - 1]), ops[|ops| - 1]);
      hide Do, Numbered;
    }
  }

  function DoAll(b: Box, ops: seq<Operation>): Box {
    if ops == [] then b else Do(DoAll(b, ops[..|ops| - 1]), ops[|ops| - 1])
  }

  lemma {:induction false} BodyKeeps(jobs: seq<Job>)
    requires forall j :: j in jobs ==> Supported(j)
    ensures Body(jobs) == jobs
  {
    if jobs != [] {
      assert jobs[0] in jobs;
      assert forall j :: j in jobs[1..] ==> j in jobs;
      BodyKeeps(jobs[1..]);
    }
  }

  /**
   * All or nothing, also in a store whose earlier rewrites faulted: the job is last in memory and in
   * the file under a new number, or memory is as before; and then the file too, unless the rewrite
   * faulted behind the rename.
   */
  lemma EnqueueIsAllOrNothing(b: Box, input: EnqueueInput, ctx: EnqueueContext, limits: Limits, p: Persist)
    requires Numbered(b)
    ensures var (b', r) := Enqueue(b, input, ctx, limits, p);
            match r
            case Ok(job) =>
              && p == Written && b'.journal == b'.jobs == b.jobs + [job] && b'.nextSeq == b.nextSeq + 1
              && job.status == Pending && job.payload == input.payload && job.scope == input.scope
              && (forall j :: j in b.jobs ==> j.seqNo < job.seqNo)
              && |b.jobs| < limits.maxJobs && !b.readOnly && !b.closed
            case Err(e) =>
              && b'.jobs == b.jobs && b'.nextSeq == b.nextSeq
              && (b'.journal == b.journal || (e == PersistFailed && p == Fault(true) && b'.journal == b.jobs + [NewJob(b, input, ctx)]))
  {
    var after := b.jobs + [NewJob(b, input, ctx)];
    if EnqueueRefusal(b, input, ctx, limits).None? {
      assert forall j :: j in after ==> j in b.jobs || j == NewJob(b, input, ctx);
      BodyKeeps(after);
    }
  }

  /**
   * Discarding is not guarded against a newer journal format. A successful discard leaves every
   * other job in the file if and only if every other job is of a supported format.
   */
  lemma DiscardKeepsOthersIff(b: Box, n: nat)
    requires exists j :: j in b.jobs && j.seqNo == n && j.status == Quarantined
    ensures var after := Discard(b, n, Written).0;
            (forall j :: j in b.jobs && j.seqNo != n ==> j in after.journal)
              <==> (forall j :: j in b.jobs && j.seqNo != n ==> Supported(j))
  {
    var kept := Filter(b.jobs, OtherThan(n));
    assert forall j :: j in Body(kept) <==> j in b.jobs && j.seqNo != n && Supported(j);
  }

  /** A read-only store that loses a job: the file held a newer-format job and a quarantined one. */
  lemma DiscardOnReadOnlyStoreDropsAJob() returns (journal: seq<Job>, lost: Job)
    ensures Load(journal, 0).readOnly
    ensures lost in journal && lost.seqNo != 1 && lost.status == Pending
    ensures lost !in Discard(Load(journal, 0), 1, Written).0.journal
  {
    var base := Job(0, 1, 1, "personal", "a", "k", Malformed, None, 0, 0, 0, Quarantined, None, None);
    lost := base.(seqNo := 2, schemaVersion := 2, status := Pending);
    journal := [base, lost];
    assert base in journal;
    assert lost !in Body(Filter(journal, OtherThan(1)));
  }

  // ---- the store, in its own form ----------------------------------------------

  class JournalFile {
    var lines: seq<Job>

    constructor (initial: seq<Job>)
      ensures lines == initial
    {
      lines := initial;
    }
  }

  class DurableOutbox {
    var jobs: seq<Job>
    var nextSeq: nat
    var readOnly: bool
    var closed: bool
    var tickets: nat
    const file: JournalFile
    const limits: Limits

    ghost function Value(): Box
      reads this, file
    {
      Box(jobs, nextSeq, tickets, file.lines, readOnly, closed)
    }

    /** `open` and `load`: line by line, raising `nextSeq` past every stored seq. */
    constructor Open(file: JournalFile, limits: Limits, tickets: nat)
      ensures this.file == file && this.limits == limits
      ensures Value() == Load(file.lines, tickets)
      ensures file.lines == old(file.lines)
    {
      this.file := file;
      this.limits := limits;
      this.tickets := tickets;
      jobs := [];
      nextSeq := 1;
      readOnly := false;
      closed := false;
      new;
      var lines := file.lines;
      hide HoldsNewer;
      for i := 0 to |lines|
        invariant this.file == file && this.limits == limits && file.lines == lines == old(file.lines)
        invariant this.tickets == tickets && !closed
        invariant jobs == lines[..i]
        invariant nextSeq == NextSeqAfter(jobs)
        invariant readOnly == HoldsNewer(jobs)
      {
        var job := lines[i];
        if job.schemaVersion > SUPPORTED_SCHEMA {
          readOnly := true;
        }
        assert lines[..i + 1] == lines[..i] + [job];
        assert lines[..i + 1][..i] == lines[..i];
        NewerPush(jobs, job);
        jobs := jobs + [job];
        nextSeq := Max(nextSeq, job.seqNo + 1);
      }
      assert lines[..|lines|] == lines;
    }

    /** Writes the supported jobs; a fault may or may not have replaced the file. */
    method Save(p: Persist) returns (ok: bool)
      modifies file
      ensures ok <==> p == Written
      ensures file.lines == (if p == Fault(false) then old(file.lines) else Body(jobs))
    {
      if p != Fault(false) {
        var body := [];
        for i := 0 to |jobs|
          invariant file.lines == old(file.lines)
          invariant body + Body(jobs[i..]) == Body(jobs)
        {
          assert jobs[i..][1..] == jobs[i + 1..];
          if jobs[i].schemaVersion <= SUPPORTED_SCHEMA {
            body := body + [jobs[i]];
          }
        }
        file.lines := body;
      }
      ok := p == Written;
    }

    method Paused() returns (paused: bool)
      ensures paused == CapturePaused(jobs, limits)
    {
      var bytes := 0;
      for i := 0 to |jobs|
        invariant bytes == RetainedBytes(jobs[..i], limits.bytes)
      {
        assert jobs[..i + 1][..i] == jobs[..i];
        bytes := bytes + limits.bytes(jobs[i]) + 1;
      }
      assert jobs[..|jobs|] == jobs;
      paused := |jobs| >= limits.maxJobs || bytes >= limits.maxBytes;
    }

    method Refusal(input: EnqueueInput, ctx: EnqueueContext) returns (e: Option<StoreError>)
      ensures e == EnqueueRefusal(Value(), input, ctx, limits)
    {
      if closed { return Some(Closed); }
      if readOnly { return Some(ReadOnly); }
      var paused := Paused();
      if paused { return Some(Overflow); }
      if ctx.looksSecret { return Some(SecretBearing); }
      if !HexKey(input.idempotencyKey) { return Some(BadKey); }
      return None;
    }

    method Add(input: EnqueueInput, ctx: EnqueueContext, p: Persist) returns (r: Result<Job, StoreError>)
      modifies this, file
      ensures Value() == Enqueue(old(Value()), input, ctx, limits, p).0
      ensures r == Enqueue(old(Value()), input, ctx, limits, p).1
    {
      hide EnqueueRefusal, Body;
      ghost var before := Value();
      var refusal := Refusal(input, ctx);
      if refusal.Some? { return Err(refusal.value); }
      assert EnqueueRefusal(before, input, ctx, limits) == None;
      var target := if input.target.Some? then input.target else ctx.sessionTarget;
      var opId := if input.opId.Some? then input.opId.value else ctx.freshId;
      var snapshot := jobs;
      var job := Job(tickets, nextSeq, SUPPORTED_SCHEMA, input.scope, opId, input.idempotencyKey, input.payload,
                     target, 0, ctx.now, ctx.now, Pending, None, None);
      assert job == NewJob(before, input, ctx);
      tickets := tickets + 1;
      nextSeq := nextSeq + 1;
      jobs := jobs + [job];
      var ok := Save(p);
      if !ok {
        jobs := snapshot;
        nextSeq := job.seqNo;
        return Err(PersistFailed);
      }
      return Ok(job);
    }

    /** `ack`, `retry` and `quarantine`: edit one job in place, roll back when the write fails. */
    method Update(n: nat, c: Change, p: Persist) returns (e: Option<StoreError>)
      modifies this, file
      ensures Value() == Mutate(old(Value()), n, c, p).0
      ensures e == Mutate(old(Value()), n, c, p).1
    {
      hide Body, Changed;
      if readOnly { return Some(ReadOnly); }
      var i := 0;
      while i < |jobs| && jobs[i].seqNo != n
        invariant 0 <= i <= |jobs|
        invariant forall k :: 0 <= k < i ==> jobs[k].seqNo != n
      {
        i := i + 1;
      }
      if i == |jobs| || jobs[i].schemaVersion > SUPPORTED_SCHEMA {
        return Some(NotFound);
      }
      var snapshot := jobs;
      jobs := jobs[i := Changed(jobs[i], c)];
      var ok := Save(p);
      if !ok {
        jobs := snapshot;
        return Some(PersistFailed);
      }
      return None;
    }

    method DiscardQuarantined(n: nat, p: Persist) returns (e: Option<StoreError>)
      modifies this, file
      ensures Value() == Discard(old(Value()), n, p).0
      ensures e == Discard(old(Value()), n, p).1
    {
      var i := 0;
      while i < |jobs| && !(jobs[i].seqNo == n && jobs[i].status == Quarantined)
        invariant 0 <= i <= |jobs|
        invariant forall k :: 0 <= k < i ==> !(jobs[k].seqNo == n && jobs[k].status == Quarantined)
      {
        i := i + 1;
      }
      if i == |jobs| { return Some(NotFound); }
      assert jobs[i] in jobs;
      var snapshot := jobs;
      jobs := Filter(jobs, OtherThan(n));
      var ok := Save(p);
      if !ok {
        jobs := snapshot;
        return Some(PersistFailed);
      }
      return None;
    }

    method Retain(now: int, p: Persist) returns (r: Result<nat, StoreError>)
      modifies this, file
      ensures Value() == RunRetention(old(Value()), now, limits, p).0
      ensures r == RunRetention(old(Value()), now, limits, p).1
    {
      if readOnly { return Ok(0); }
      var keep := Filter(jobs, KeptAfter(now - limits.retentionMs));
      var removed := |jobs| - |keep|;
      if removed > 0 {
        var snapshot := jobs;
        jobs := keep;
        var ok := Save(p);
        if !ok {
          jobs := snapshot;
          return Err(PersistFailed);
        }
      }
      return Ok(removed);
    }
  }
}
