/**
 * When the journal takes, keeps and drops a job, said of the job and the call alone.
 */
module JournalRules {
  import opened Common
  import opened Outbox

  // ---- enqueue ---------------------------------------------------------------------------------------------

  /** A store takes nothing more at its job count or its byte limit, a line break counted with every job. */
  ghost predicate Full(b: Box, limits: Limits) {
    |b.jobs| >= limits.maxJobs || TotalBytes(b.jobs, limits.bytes) + |b.jobs| >= limits.maxBytes
  }

  function TotalBytes(jobs: seq<Job>, bytes: Job -> nat): nat {
    if jobs == [] then 0 else bytes(jobs[0]) + TotalBytes(jobs[1..], bytes)
  }

  lemma {:induction false} BytesPush(jobs: seq<Job>, job: Job, bytes: Job -> nat)
    ensures TotalBytes(jobs + [job], bytes) == TotalBytes(jobs, bytes) + bytes(job)
  {
    if jobs == [] {
      assert [] + [job] == [job];
    } else {
      assert (jobs + [job])[1..] == jobs[1..] + [job];
      BytesPush(jobs[1..], job, bytes);
    }
  }

  lemma {:induction false} RetainedBytesIs(jobs: seq<Job>, bytes: Job -> nat)
    ensures RetainedBytes(jobs, bytes) == TotalBytes(jobs, bytes) + |jobs|
    decreases |jobs|
  {
    if jobs != [] {
      var init, last := jobs[..|jobs| - 1], jobs[|jobs| - 1];
      RetainedBytesIs(init, bytes);
      BytesPush(init, last, bytes);
      assert init + [last] == jobs;
    }
  }

  ghost predicate KeyAccepted(key: string) {
    16 <= |key| <= 64 && forall c :: c in key ==> c in "0123456789abcdef"
  }

  lemma HexKeyIff(key: string)
    ensures HexKey(key) <==> KeyAccepted(key)
  {
    forall c: char ensures '0' <= c <= '9' || 'a' <= c <= 'f' <==> c in "0123456789abcdef" {
      HexCharIff(c);
    }
  }

  lemma HexCharIff(c: char)
    ensures '0' <= c <= '9' || 'a' <= c <= 'f' <==> c in "0123456789abcdef"
  {
    var hex := "0123456789abcdef";
    if '0' <= c <= '9' { assert hex[c as int - '0' as int] == c; }
    if 'a' <= c <= 'f' { assert hex[10 + (c as int - 'a' as int)] == c; }
  }

  /** An enqueue is refused for the first of these that holds, and then the store is as it was. */
  lemma RefusedIff(b: Box, input: EnqueueInput, ctx: EnqueueContext, limits: Limits, p: Persist)
    ensures var (t, r) := Enqueue(b, input, ctx, limits, p);
            if b.closed then t == b && r == Err(Closed)
            else if b.readOnly then t == b && r == Err(ReadOnly)
            else if Full(b, limits) then t == b && r == Err(Overflow)
            else if ctx.looksSecret then t == b && r == Err(SecretBearing)
            else if !KeyAccepted(input.idempotencyKey) then t == b && r == Err(BadKey)
            else (r.Ok? <==> p == Written) && (r.Err? ==> r.error == PersistFailed)
  {
    RetainedBytesIs(b.jobs, limits.bytes);
    HexKeyIff(input.idempotencyKey);
    hide TotalBytes, RetainedBytes, HexKey, KeyAccepted;
  }

  /** An accepted job carries what was asked for, is due at once, and was never tried. */
  lemma AcceptedSays(b: Box, input: EnqueueInput, ctx: EnqueueContext, limits: Limits, p: Persist)
    requires Enqueue(b, input, ctx, limits, p).1.Ok?
    ensures var (t, job) := (Enqueue(b, input, ctx, limits, p).0, Enqueue(b, input, ctx, limits, p).1.value);
            && t.jobs == b.jobs + [job] && job.seqNo == b.nextSeq && t.nextSeq == b.nextSeq + 1
            && job.scope == input.scope && job.payload == input.payload && job.idempotencyKey == input.idempotencyKey
            && (input.opId.Some? ==> job.opId == input.opId.value) && (input.opId.None? ==> job.opId == ctx.freshId)
            && (input.target.Some? ==> job.target == input.target) && (input.target.None? ==> job.target == ctx.sessionTarget)
            && job.attempts == 0 && job.nextAttemptAt == ctx.now && job.createdAt == ctx.now
            && job.status == Pending && job.lastError == None && job.ackedAt == None && job.schemaVersion == SUPPORTED_SCHEMA
  {
    hide EnqueueRefusal, Body;
  }

  /** A reopened store numbers on right after the largest number in the file, an empty one from one. */
  lemma {:induction false} NumbersOn(journal: seq<Job>, tickets: nat)
    ensures var n := Load(journal, tickets).nextSeq;
            (if journal == [] then n == 1 else n == 1 || exists j :: j in journal && n == j.seqNo + 1)
            && forall j :: j in journal ==> j.seqNo < n
    decreases |journal|
  {
    if journal != [] {
      var init, last := journal[..|journal| - 1], journal[|journal| - 1];
      NumbersOn(init, tickets);
      assert init + [last] == journal && last in journal && forall j :: j in init ==> j in journal;
    }
  }

  // ---- changing and dropping ------------------------------------------------------------------------------------

  /** Memory and file behind a rewrite for `jobs`; on a fault memory is as before. */
  ghost predicate Rewritten(b: Box, t: Box, jobs: seq<Job>, p: Persist) {
    && t == b.(jobs := t.jobs, journal := t.journal)
    && t.jobs == (if p == Written then jobs else b.jobs)
    && (p == Fault(false) ==> t.journal == b.journal)
    && (p != Fault(false) ==> forall j :: j in t.journal <==> j in jobs && j.schemaVersion <= SUPPORTED_SCHEMA)
  }

  lemma CommitRewrites(b: Box, jobs: seq<Job>, p: Persist)
    ensures Rewritten(b, Commit(b, jobs, p), jobs, p)
  {
  }

  ghost predicate DistinctNumbers(jobs: seq<Job>) {
    forall i, k :: 0 <= i < k < |jobs| ==> jobs[i].seqNo != jobs[k].seqNo
  }

  /** A change reaches the one job with its number; none in a read-only store, and none of a newer format. */
  lemma ChangesOneJob(b: Box, i: nat, c: Change, p: Persist)
    requires DistinctNumbers(b.jobs) && i < |b.jobs|
    ensures var (t, err) := Mutate(b, b.jobs[i].seqNo, c, p);
            if b.readOnly then t == b && err == Some(ReadOnly)
            else if b.jobs[i].schemaVersion > SUPPORTED_SCHEMA then t == b && err == Some(NotFound)
            else Rewritten(b, t, b.jobs[i := Changed(b.jobs[i], c)], p) && err == (if p == Written then None else Some(PersistFailed))
  {
    FoundAt(b.jobs, i);
    CommitRewrites(b, b.jobs[i := Changed(b.jobs[i], c)], p);
    hide Commit, Changed, Rewritten, IndexOfSeq, DistinctNumbers;
  }

  lemma FoundAt(jobs: seq<Job>, i: nat)
    requires DistinctNumbers(jobs) && i < |jobs|
    ensures IndexOfSeq(jobs, jobs[i].seqNo) == Some(i)
  {
    var k := IndexOfSeq(jobs, jobs[i].seqNo);
  }

  lemma UnknownIsNotChanged(b: Box, n: nat, c: Change, p: Persist)
    requires forall j :: j in b.jobs ==> j.seqNo != n
    ensures Mutate(b, n, c, p) == (b, Some(if b.readOnly then ReadOnly else NotFound))
  {
    forall k | 0 <= k < |b.jobs| ensures b.jobs[k].seqNo != n {
      assert b.jobs[k] in b.jobs;
    }
  }

  /** Only a quarantined job can be discarded; then exactly the jobs of that number go. */
  lemma DiscardsQuarantinedOnly(b: Box, n: nat, p: Persist) returns (rest: seq<Job>)
    ensures forall j :: j in rest <==> j in b.jobs && j.seqNo != n
    ensures var (t, err) := Discard(b, n, p);
            if exists j :: j in b.jobs && j.seqNo == n && j.status == Quarantined then
              Rewritten(b, t, rest, p) && err == (if p == Written then None else Some(PersistFailed))
            else t == b && err == Some(NotFound)
  {
    rest := Filter(b.jobs, OtherThan(n));
    CommitRewrites(b, rest, p);
    hide Commit, Rewritten;
  }

  /** Acknowledged, and longer ago than the retention period. */
  predicate Expired(j: Job, now: int, limits: Limits) {
    j.status == Acked && now - (if j.ackedAt.Some? then j.ackedAt.value else 0) >= limits.retentionMs
  }

  function ExpiredAt(now: int, limits: Limits): Job -> bool {
    (j: Job) => Expired(j, now, limits)
  }

  lemma {:induction false} KeptAre(jobs: seq<Job>, now: int, limits: Limits)
    ensures var keep := Filter(jobs, KeptAfter(now - limits.retentionMs));
            && (forall j :: j in keep <==> j in jobs && !Expired(j, now, limits))
            && |jobs| == |keep| + |Filter(jobs, ExpiredAt(now, limits))|
  {
    if jobs != [] { KeptAre(jobs[1..], now, limits); }
  }

  lemma {:induction false} ExpiredAre(jobs: seq<Job>, now: int, limits: Limits)
    ensures forall j :: j in Filter(jobs, ExpiredAt(now, limits)) <==> j in jobs && Expired(j, now, limits)
  {
    if jobs != [] { ExpiredAre(jobs[1..], now, limits); }
  }

  /** Retention drops exactly the jobs acknowledged long enough ago, and reports how many; a read-only store drops none. */
  lemma RetentionDropsIff(b: Box, now: int, limits: Limits, p: Persist) returns (keep: seq<Job>)
    ensures forall j :: j in keep <==> j in b.jobs && !Expired(j, now, limits)
    ensures var (t, r) := RunRetention(b, now, limits, p);
            if b.readOnly || (forall j :: j in b.jobs ==> !Expired(j, now, limits)) then t == b && r == Ok(0)
            else
              && (r == if p == Written then Ok(|Filter(b.jobs, ExpiredAt(now, limits))|) else Err(PersistFailed))
              && Rewritten(b, t, keep, p)
  {
    hide Filter, Commit, Rewritten, Expired;
    keep := Filter(b.jobs, KeptAfter(now - limits.retentionMs));
    KeptAre(b.jobs, now, limits);
    NoneExpired(b.jobs, now, limits);
    CommitRewrites(b, keep, p);
  }

  lemma NoneExpired(jobs: seq<Job>, now: int, limits: Limits)
    ensures Filter(jobs, ExpiredAt(now, limits)) == [] <==> forall j :: j in jobs ==> !Expired(j, now, limits)
  {
    hide Expired;
    ExpiredAre(jobs, now, limits);
    var gone := Filter(jobs, ExpiredAt(now, limits));
    if gone != [] { assert gone[0] in gone; }
  }
}
