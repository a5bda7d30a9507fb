/**
 * What every run of the outbox keeps: no accepted job is lost, a scope is sent in enqueue
 * order across crashes, and an immutable path never changes once it is ours.
 */
module OutboxSafety {
  import opened Common
  import opened Outbox
  import opened OutboxSystem

  // ---- the invariant -------------------------------------------------------------

  ghost predicate Ordered(jobs: seq<Job>) {
    forall i, j :: 0 <= i < j < |jobs| ==> jobs[i].seqNo < jobs[j].seqNo && jobs[i].ticket < jobs[j].ticket
  }

  /** The part of a job no operation may change. */
  function Work(j: Job): Job {
    j.(attempts := 0, nextAttemptAt := 0, status := Pending, lastError := None, ackedAt := None)
  }

  /** The backend holds the job's content, or for the mutable manifest that of a later job. */
  ghost predicate Delivered(s: Sys, t: nat) {
    && t in s.minted && Sendable(s.minted[t])
    && var p := PathOf(s.minted[t]);
    && p in s.claimed && p in s.docs
    && match p
       case RecordPath(_) => s.docs[p] == ContentOf(s.minted[t])
       case ManifestPath(_, _) => p in s.newest && t <= s.newest[p]
  }

  ghost predicate JobOk(s: Sys, j: Job) {
    && j.ticket < s.box.tickets
    && j.ticket in s.minted
    && Work(j) == Work(s.minted[j.ticket])
    && j.schemaVersion == SUPPORTED_SCHEMA
    && (j.status == Acked ==> Delivered(s, j.ticket))
  }

  ghost predicate HasTicket(jobs: seq<Job>, t: nat) {
    exists j :: j in jobs && j.ticket == t
  }

  ghost predicate Accounted(s: Sys, jobs: seq<Job>, t: nat) {
    t in s.discarded || Delivered(s, t) || HasTicket(jobs, t)
  }

  ghost predicate ListOk(s: Sys, jobs: seq<Job>) {
    && Ordered(jobs)
    && (forall j :: j in jobs ==> JobOk(s, j))
    && (forall t :: t in s.accepted ==> Accounted(s, jobs, t))
  }

  ghost predicate PendingTicket(jobs: seq<Job>, t: nat, scope: string) {
    exists j :: j in jobs && j.status == Pending && j.ticket == t && j.scope == scope
  }

  /**
   * A job pending in the file is pending in memory, or newer than everything in memory; and a
   * job pending in memory is in the file, so that no send precedes its durable record.
   */
  ghost predicate JournalTrails(b: Box) {
    && (forall j :: j in b.journal && j.status == Pending ==>
          PendingTicket(b.jobs, j.ticket, j.scope) || forall k :: k in b.jobs ==> k.ticket < j.ticket)
    && KeepsPending(b.jobs, b.journal)
  }

  ghost predicate KeepsPending(before: seq<Job>, after: seq<Job>) {
    forall j :: j in before && j.status == Pending ==> HasTicket(after, j.ticket)
  }

  ghost predicate IsHead(jobs: seq<Job>, q: Job) {
    && q in jobs && q.status == Pending
    && forall j :: j in jobs && j.status == Pending && j.scope == q.scope ==> q.ticket <= j.ticket
  }

  ghost predicate QueueOk(s: Sys) {
    && (forall q :: q in s.queue ==> IsHead(s.box.jobs, q))
    && (forall i, k :: 0 <= i < k < |s.queue| ==> s.queue[i].scope != s.queue[k].scope)
    && (!s.flight.NoFlight? ==>
          && IsHead(s.box.jobs, s.flight.job)
          && forall q :: q in s.queue ==> q.scope != s.flight.job.scope)
  }

  ghost predicate FlightOk(s: Sys) {
    match s.flight
    case NoFlight => true
    case Reading(j) => Sendable(j) && PathOf(j).RecordPath? && j in s.sends
    case Writing(j) => Sendable(j) && j in s.sends && (PathOf(j).RecordPath? ==> PathOf(j) !in s.claimed)
    case Settling(j, o) => o == Sent ==> Delivered(s, j.ticket)
  }

  ghost predicate SentBefore(s: Sys, jobs: seq<Job>) {
    forall k, j :: k in s.sends && j in jobs && j.status == Pending && j.scope == k.scope ==> k.ticket <= j.ticket
  }

  /** Within one scope the sender never sees an older ticket after a newer one. */
  ghost predicate InScopeOrder(sends: seq<Job>) {
    forall i, k :: 0 <= i < k < |sends| && sends[i].scope == sends[k].scope ==> sends[i].ticket <= sends[k].ticket
  }

  ghost predicate SendsOk(s: Sys) {
    && InScopeOrder(s.sends)
    && SentBefore(s, s.box.jobs) && SentBefore(s, s.box.journal)
    && (forall k :: k in s.sends ==> k.ticket < s.box.tickets)
  }

  ghost predicate SentTicket(sends: seq<Job>, t: nat, scope: string) {
    exists k :: k in sends && k.ticket == t && k.scope == scope
  }

  ghost predicate WrittenFor(s: Sys, p: Path) {
    && p in s.newest && s.newest[p] in s.minted
    && var j := s.minted[s.newest[p]];
    && Sendable(j) && PathOf(j) == p
    && p in s.docs && s.docs[p] == ContentOf(j)
  }

  ghost predicate DocsOk(s: Sys) {
    && (forall p :: p in s.claimed ==> p in s.docs)
    && (forall p :: p in s.newest ==> p in s.claimed && WrittenFor(s, p))
    && (forall p :: p in s.newest && p.ManifestPath? ==> SentTicket(s.sends, s.newest[p], p.scope))
  }

  ghost predicate MintOk(s: Sys) {
    && (forall t :: t in s.minted ==> t < s.box.tickets && s.minted[t].ticket == t)
    && (forall t :: t in s.accepted ==> t in s.minted)
  }

  ghost predicate BoxOk(b: Box) {
    !b.readOnly && !b.closed && forall j :: j in b.jobs ==> j.seqNo < b.nextSeq
  }

  ghost predicate Inv(s: Sys) {
    && BoxOk(s.box)
    && ListOk(s, s.box.jobs) && ListOk(s, s.box.journal)
    && JournalTrails(s.box)
    && MintOk(s) && QueueOk(s) && FlightOk(s) && SendsOk(s) && DocsOk(s)
  }

  // ---- job lists -------------------------------------------------------------------

  /** `j` comes before everything in `jobs`. */
  ghost predicate Precedes(j: Job, jobs: seq<Job>) {
    forall k :: k in jobs ==> j.seqNo < k.seqNo && j.ticket < k.ticket
  }

  lemma OrderedCons(j: Job, rest: seq<Job>)
    requires Ordered(rest) && Precedes(j, rest)
    ensures Ordered([j] + rest)
  {
  }

  lemma {:induction false} FilterOrdered(jobs: seq<Job>, keep: Job -> bool)
    requires Ordered(jobs)
    ensures Ordered(Filter(jobs, keep))
  {
    if jobs != [] {
      hide Ordered;
      FilterOrdered(jobs[1..], keep);
      if keep(jobs[0]) {
        OrderedCons(jobs[0], Filter(jobs[1..], keep));
      }
    }
  }

  /** `s'` remembers at least what `s` did; a list that was fine stays fine. */
  ghost predicate Extends(s: Sys, s': Sys) {
    && s.box.tickets <= s'.box.tickets
    && (forall t :: t in s.minted ==> t in s'.minted && s'.minted[t] == s.minted[t])
    && s.discarded <= s'.discarded
    && (forall t :: Delivered(s, t) ==> Delivered(s', t))
  }

  lemma ListExtends(s: Sys, s': Sys, jobs: seq<Job>)
    requires ListOk(s, jobs) && Extends(s, s') && s'.accepted == s.accepted
    ensures ListOk(s', jobs)
  {
    forall j | j in jobs ensures JobOk(s', j) {
      assert JobOk(s, j);
    }
    forall t | t in s'.accepted ensures Accounted(s', jobs, t) {
      assert Accounted(s, jobs, t);
    }
  }

  /** What the history part of the invariant needs from a step that leaves the backend alone. */
  ghost predicate SameBackend(s: Sys, s': Sys) {
    && s'.docs == s.docs && s'.claimed == s.claimed && s'.newest == s.newest
    && (forall t :: t in s.minted ==> t in s'.minted && s'.minted[t] == s.minted[t])
    && (forall k :: k in s.sends ==> k in s'.sends)
  }

  lemma DocsKept(s: Sys, s': Sys)
    requires DocsOk(s) && SameBackend(s, s')
    ensures DocsOk(s')
  {
    forall p | p in s'.newest ensures WrittenFor(s', p) {
      assert WrittenFor(s, p);
    }
    forall p | p in s'.newest && p.ManifestPath? ensures SentTicket(s'.sends, s'.newest[p], p.scope) {
      assert SentTicket(s.sends, s.newest[p], p.scope);
    }
  }

  lemma FlightKept(s: Sys, s': Sys)
    requires FlightOk(s) && SameBackend(s, s') && s'.flight == s.flight
    ensures FlightOk(s')
  {
  }

  /** Steps on the journal and the lists only: the history and the backend part carry over. */
  lemma ListsKept(s: Sys, s': Sys)
    requires Inv(s) && SameBackend(s, s') && s'.flight == s.flight
    requires s'.accepted == s.accepted && s.discarded <= s'.discarded && s.box.tickets <= s'.box.tickets
    ensures Extends(s, s') && FlightOk(s') && DocsOk(s')
    ensures forall jobs :: ListOk(s, jobs) ==> ListOk(s', jobs)
  {
    FlightKept(s, s');
    DocsKept(s, s');
    forall jobs | ListOk(s, jobs) ensures ListOk(s', jobs) {
      ListExtends(s, s', jobs);
    }
  }

  // ---- a rewrite of the journal ----------------------------------------------------

  /** Every pending job of `after` was already pending in `before`. */
  ghost predicate NoNewPending(before: seq<Job>, after: seq<Job>) {
    forall j :: j in after && j.status == Pending ==> PendingTicket(before, j.ticket, j.scope)
  }

  /** The heads a tick still holds survive in `after`. */
  ghost predicate KeepsHeads(s: Sys, after: seq<Job>) {
    && (forall q :: q in s.queue ==> q in after)
    && (!s.flight.NoFlight? ==> s.flight.job in after)
  }

  lemma TrailsKept(s: Sys, after: seq<Job>, p: Persist)
    requires JournalTrails(s.box) && NoNewPending(s.box.jobs, after) && Body(after) == after
    requires KeepsPending(s.box.jobs, after)
    ensures JournalTrails(Commit(s.box, after, p))
  {
    var b := Commit(s.box, after, p);
    if p == Written {
      assert KeepsPending(after, after);
      forall j | j in b.journal && j.status == Pending ensures PendingTicket(b.jobs, j.ticket, j.scope) {
      }
    }
  }

  lemma SendsKept(s: Sys, after: seq<Job>, p: Persist)
    requires SendsOk(s) && NoNewPending(s.box.jobs, after) && Body(after) == after
    ensures SendsOk(s.(box := Commit(s.box, after, p)))
  {
  }

  lemma SupportedList(s: Sys, jobs: seq<Job>)
    requires ListOk(s, jobs)
    ensures Body(jobs) == jobs
  {
    forall j | j in jobs ensures Supported(j) {
      assert JobOk(s, j);
    }
    BodyKeeps(jobs);
  }

  lemma CommittedBox(b: Box, after: seq<Job>, p: Persist)
    requires BoxOk(b) && forall j :: j in after ==> j.seqNo < b.nextSeq
    ensures BoxOk(Commit(b, after, p))
  {
  }

  /** Any rewrite that adds no pending job, whether it succeeds, fails or half succeeds. */
  lemma CommitKeepsInv(s: Sys, after: seq<Job>, p: Persist)
    requires Inv(s)
    requires ListOk(s, after) && NoNewPending(s.box.jobs, after) && KeepsHeads(s, after)
    requires KeepsPending(s.box.jobs, after)
    requires forall j :: j in after ==> j.seqNo < s.box.nextSeq
    ensures Inv(s.(box := Commit(s.box, after, p)))
  {
    hide BoxOk, ListOk, JournalTrails, QueueOk, FlightOk, SendsOk, DocsOk, Extends, NoNewPending, KeepsHeads, KeepsPending;
    var s' := s.(box := Commit(s.box, after, p));
    ListsKept(s, s');
    SupportedList(s, after);
    CommittedBox(s.box, after, p);
    SendsKept(s, after, p);
    TrailsKept(s, after, p);
    CommittedQueue(s, after, p);
    assert MintOk(s');
  }

  lemma CommittedQueue(s: Sys, after: seq<Job>, p: Persist)
    requires QueueOk(s) && NoNewPending(s.box.jobs, after) && KeepsHeads(s, after)
    ensures QueueOk(s.(box := Commit(s.box, after, p)))
  {
    if p == Written {
    }
  }

  // ---- enqueue ---------------------------------------------------------------------

  /** Only the history moves: one more ticket, and what was minted under it. */
  function Mint(s: Sys, job: Job): Sys {
    s.(box := s.box.(tickets := s.box.tickets + 1), minted := s.minted[s.box.tickets := job])
  }

  lemma MintKeepsInv(s: Sys, job: Job)
    requires Inv(s) && job.ticket == s.box.tickets
    ensures Inv(Mint(s, job))
  {
    hide ListOk, JournalTrails, QueueOk, FlightOk, DocsOk, SendsOk, Extends;
    ListsKept(s, Mint(s, job));
    MintedQueue(s, job);
    MintedSends(s, job);
  }

  lemma MintedSends(s: Sys, job: Job)
    requires BoxOk(s.box) && MintOk(s) && SendsOk(s) && job.ticket == s.box.tickets
    ensures BoxOk(Mint(s, job).box) && MintOk(Mint(s, job)) && SendsOk(Mint(s, job))
  {
  }

  lemma MintedQueue(s: Sys, job: Job)
    requires QueueOk(s)
    ensures QueueOk(Mint(s, job))
    ensures JournalTrails(s.box) ==> JournalTrails(Mint(s, job).box)
  {
  }

  /** The three ends of an enqueue that was not refused: `m` already carries the ticket. */
  function Enqueued(m: Sys, job: Job, p: Persist): Sys {
    var after := m.box.jobs + [job];
    match p
    case Fault(false) => m
    case Fault(true) => m.(box := m.box.(journal := after))
    case Written =>
      m.(box := m.box.(jobs := after, journal := after, nextSeq := m.box.nextSeq + 1),
         accepted := m.accepted + {job.ticket})
  }

  lemma AcceptCases(s: Sys, cfg: Config, input: EnqueueInput, ctx: EnqueueContext, p: Persist)
    requires EnqueueRefusal(s.box, input, ctx, cfg.limits) == None
    requires forall j :: j in s.box.jobs ==> Supported(j)
    ensures var job := NewJob(s.box, input, ctx);
            Accept(s, cfg, input, ctx, p) == Enqueued(Mint(s, job), job, p)
  {
    BodyKeeps(s.box.jobs + [NewJob(s.box, input, ctx)]);
  }

  ghost predicate Newest(m: Sys, job: Job) {
    && job.status == Pending
    && JobOk(m, job)
    && (forall j :: j in m.box.jobs ==> j.seqNo < job.seqNo && j.ticket < job.ticket)
    && (forall k :: k in m.sends ==> k.ticket <= job.ticket)
  }

  lemma TrailsAppended(m: Sys, b: Box, job: Job)
    requires Newest(m, job) && b.journal == m.box.jobs + [job]
    requires b.jobs == m.box.jobs || b.jobs == b.journal
    ensures JournalTrails(b)
  {
    forall j | j in b.journal && j.status == Pending
      ensures PendingTicket(b.jobs, j.ticket, j.scope) || forall k :: k in b.jobs ==> k.ticket < j.ticket
    {
      if j in b.jobs {
        assert PendingTicket(b.jobs, j.ticket, j.scope);
      }
    }
    forall j | j in b.jobs ensures HasTicket(b.journal, j.ticket) {
      assert j in b.journal;
    }
  }

  lemma JournalAppended(m: Sys, job: Job)
    requires Inv(m) && Newest(m, job)
    ensures Inv(Enqueued(m, job, Fault(true)))
  {
    hide ListOk, JournalTrails, MintOk, FlightOk, SendsOk, DocsOk, Extends, QueueOk, Newest;
    var s' := Enqueued(m, job, Fault(true));
    AppendNewest(m, job, m.accepted);
    assert m.(accepted := m.accepted) == m;
    ListsKept(m, s');
    TrailsAppended(m, s'.box, job);
    SendsAppended(m, s', job);
    QueueSame(m, s');
    MintKept(m, s');
  }

  lemma QueueAppended(m: Sys, s': Sys, job: Job)
    requires QueueOk(m) && Newest(m, job)
    requires s'.box.jobs == m.box.jobs + [job] && s'.queue == m.queue && s'.flight == m.flight
    ensures QueueOk(s')
  {
    forall q | IsHead(m.box.jobs, q) ensures IsHead(s'.box.jobs, q) {
    }
  }

  lemma SendsAppended(m: Sys, s': Sys, job: Job)
    requires SendsOk(m) && Newest(m, job)
    requires s'.box.journal == m.box.jobs + [job] && (s'.box.jobs == m.box.jobs || s'.box.jobs == s'.box.journal)
    requires s'.sends == m.sends && s'.box.tickets == m.box.tickets
    ensures SendsOk(s')
  {
  }

  lemma AppendNewest(m: Sys, job: Job, accepted: set<nat>)
    requires ListOk(m, m.box.jobs) && Newest(m, job) && accepted <= m.accepted + {job.ticket}
    ensures ListOk(m.(accepted := accepted), m.box.jobs + [job])
  {
  }

  lemma QueueSame(m: Sys, s': Sys)
    requires QueueOk(m) && s'.box.jobs == m.box.jobs && s'.queue == m.queue && s'.flight == m.flight
    ensures QueueOk(s')
  {
  }

  lemma BoxAppended(m: Sys, job: Job)
    requires BoxOk(m.box) && MintOk(m) && Newest(m, job) && job.seqNo == m.box.nextSeq
    ensures BoxOk(Enqueued(m, job, Written).box) && MintOk(Enqueued(m, job, Written))
  {
  }

  lemma Appended(m: Sys, job: Job)
    requires Inv(m) && Newest(m, job) && job.seqNo == m.box.nextSeq
    ensures Inv(Enqueued(m, job, Written))
  {
    hide ListOk, JournalTrails, MintOk, FlightOk, SendsOk, DocsOk, QueueOk, Newest;
    var n := m.(accepted := m.accepted + {job.ticket});
    var s' := Enqueued(m, job, Written);
    AppendNewest(m, job, n.accepted);
    ListExtends(n, s', s'.box.jobs);
    TrailsAppended(m, s'.box, job);
    QueueAppended(m, s', job);
    SendsAppended(m, s', job);
    FlightKept(m, s');
    DocsKept(m, s');
    BoxAppended(m, job);
  }

  lemma EnqueueKeepsInv(s: Sys, cfg: Config, input: EnqueueInput, ctx: EnqueueContext, p: Persist)
    requires Inv(s)
    ensures Inv(Accept(s, cfg, input, ctx, p))
  {
    if EnqueueRefusal(s.box, input, ctx, cfg.limits) == None {
      var job := NewJob(s.box, input, ctx);
      var m := Mint(s, job);
      MintKeepsInv(s, job);
      AcceptCases(s, cfg, input, ctx, p);
      EnqueuedKeepsInv(m, job, p);
    }
  }

  lemma EnqueuedKeepsInv(m: Sys, job: Job, p: Persist)
    requires Inv(m) && Newest(m, job) && job.seqNo == m.box.nextSeq
    ensures Inv(Enqueued(m, job, p))
  {
    match p {
      case Fault(false) =>
      case Fault(true) => JournalAppended(m, job);
      case Written => Appended(m, job);
    }
  }

  // ---- discard and retention -------------------------------------------------------

  lemma FilterKeepsInv(s: Sys, keep: Job -> bool, p: Persist)
    requires Inv(s)
    requires forall j :: j in s.box.jobs && j.status == Pending ==> keep(j)
    requires forall j :: j in s.box.jobs && !keep(j) ==> j.ticket in s.discarded || Delivered(s, j.ticket)
    ensures Inv(s.(box := Commit(s.box, Filter(s.box.jobs, keep), p)))
  {
    var after := Filter(s.box.jobs, keep);
    FilterOrdered(s.box.jobs, keep);
    forall t | t in s.accepted ensures Accounted(s, after, t) {
      assert Accounted(s, s.box.jobs, t);
      if HasTicket(s.box.jobs, t) {
        var j :| j in s.box.jobs && j.ticket == t;
        if keep(j) {
          assert j in after;
        }
      }
    }
    forall j | j in after && j.status == Pending ensures PendingTicket(s.box.jobs, j.ticket, j.scope) {
    }
    forall j | j in s.box.jobs && j.status == Pending ensures HasTicket(after, j.ticket) {
      assert j in after;
    }
    CommitKeepsInv(s, after, p);
  }

  lemma DiscardedKeepsInv(s: Sys, gone: set<nat>)
    requires Inv(s)
    ensures Inv(s.(discarded := s.discarded + gone))
  {
    hide BoxOk, ListOk, JournalTrails, FlightOk, DocsOk, Extends;
    ListsKept(s, s.(discarded := s.discarded + gone));
  }

  lemma SameTicket(jobs: seq<Job>, a: Job, b: Job)
    requires Ordered(jobs) && a in jobs && b in jobs
    requires a.ticket == b.ticket || a.seqNo == b.seqNo
    ensures a == b
  {
    var i :| 0 <= i < |jobs| && jobs[i] == a;
    var k :| 0 <= k < |jobs| && jobs[k] == b;
  }

  lemma QuarantinedOnly(s: Sys, n: nat)
    requires Ordered(s.box.jobs)
    requires exists j :: j in s.box.jobs && j.seqNo == n && j.status == Quarantined
    ensures forall j :: j in s.box.jobs && j.status == Pending ==> OtherThan(n)(j)
  {
    var q :| q in s.box.jobs && q.seqNo == n && q.status == Quarantined;
    forall j | j in s.box.jobs && j.status == Pending ensures j.seqNo != n {
      if j.seqNo == n {
        SameTicket(s.box.jobs, j, q);
      }
    }
  }

  lemma DiscardKeepsInv(s: Sys, n: nat, p: Persist)
    requires Inv(s)
    requires exists j :: j in s.box.jobs && j.seqNo == n && j.status == Quarantined
    ensures Inv(s.(discarded := s.discarded + TicketsAt(s.box.jobs, n),
                   box := Commit(s.box, Filter(s.box.jobs, OtherThan(n)), p)))
  {
    var gone := TicketsAt(s.box.jobs, n);
    DiscardedKeepsInv(s, gone);
    QuarantinedOnly(s, n);
    FilterKeepsInv(s.(discarded := s.discarded + gone), OtherThan(n), p);
  }

  lemma RetainKeepsInv(s: Sys, cutoff: int, p: Persist)
    requires Inv(s)
    ensures Inv(s.(box := Commit(s.box, Filter(s.box.jobs, KeptAfter(cutoff)), p)))
  {
    forall j | j in s.box.jobs && !KeptAfter(cutoff)(j) ensures Delivered(s, j.ticket) {
      assert JobOk(s, j);
    }
    FilterKeepsInv(s, KeptAfter(cutoff), p);
  }

  // ---- recording an outcome --------------------------------------------------------

  lemma ChangeKeepsList(s: Sys, i: nat, c: Change)
    requires ListOk(s, s.box.jobs) && i < |s.box.jobs|
    requires c.Acknowledge? ==> Delivered(s, s.box.jobs[i].ticket)
    ensures ListOk(s, s.box.jobs[i := Changed(s.box.jobs[i], c)])
  {
    var jobs := s.box.jobs;
    var after := jobs[i := Changed(jobs[i], c)];
    forall j | j in after ensures JobOk(s, j) {
      assert JobOk(s, jobs[i]);
      assert j == after[i] || j in jobs;
    }
    forall t | t in s.accepted ensures Accounted(s, after, t) {
      assert Accounted(s, jobs, t);
      if HasTicket(jobs, t) {
        var k :| 0 <= k < |jobs| && jobs[k].ticket == t;
        assert after[k] in after && after[k].ticket == t;
      }
    }
  }

  lemma IdleKeepsInv(s: Sys)
    requires Inv(s)
    ensures Inv(s.(flight := NoFlight))
  {
    var idle := s.(flight := NoFlight);
    assert QueueOk(idle) && SendsOk(idle) && FlightOk(idle);
    TickOnly(s, idle);
  }

  /** Recording a verdict changes exactly the delivered job, found by its seq number. */
  lemma SettleForm(s: Sys, cfg: Config, isPrivate: bool, at: int, reason: string, p: Persist) returns (i: nat)
    requires s.flight.Settling? && IsHead(s.box.jobs, s.flight.job) && Ordered(s.box.jobs)
    requires !s.box.readOnly && Supported(s.flight.job)
    ensures i < |s.box.jobs| && s.box.jobs[i] == s.flight.job
    ensures SettleJob(s, cfg, isPrivate, at, reason, p) ==
              match Verdict(s.flight.job, s.flight.outcome, isPrivate, at, reason, cfg.maxAttempts)
              case None => s.(flight := NoFlight)
              case Some(c) => s.(flight := NoFlight,
                                 box := Commit(s.box, s.box.jobs[i := Changed(s.box.jobs[i], c)], p))
  {
    i := IndexOfSeq(s.box.jobs, s.flight.job.seqNo).value;
  }

  lemma FlightIsHead(s: Sys)
    requires Inv(s) && s.flight.Settling?
    ensures IsHead(s.box.jobs, s.flight.job) && Ordered(s.box.jobs) && !s.box.readOnly && Supported(s.flight.job)
    ensures forall q :: q in s.queue ==> q.scope != s.flight.job.scope
    ensures s.flight.job.status == Pending
    ensures s.flight.outcome == Sent ==> Delivered(s.(flight := NoFlight), s.flight.job.ticket)
  {
    assert JobOk(s, s.flight.job);
  }

  lemma SettleKeepsInv(s: Sys, cfg: Config, isPrivate: bool, at: int, reason: string, p: Persist)
    requires Inv(s) && s.flight.Settling?
    ensures Inv(SettleJob(s, cfg, isPrivate, at, reason, p))
  {
    hide Inv, IsHead, Ordered, Delivered;
    FlightIsHead(s);
    var i := SettleForm(s, cfg, isPrivate, at, reason, p);
    var v := Verdict(s.flight.job, s.flight.outcome, isPrivate, at, reason, cfg.maxAttempts);
    IdleKeepsInv(s);
    if v.Some? {
      SettledInv(s.(flight := NoFlight), i, v.value, p);
    }
  }

  lemma SettledList(s: Sys, i: nat, c: Change)
    requires QueueOk(s) && s.flight.NoFlight? && i < |s.box.jobs|
    requires forall q :: q in s.queue ==> q.scope != s.box.jobs[i].scope
    requires s.box.jobs[i].status == Pending
    ensures var after := s.box.jobs[i := Changed(s.box.jobs[i], c)];
            && NoNewPending(s.box.jobs, after) && KeepsHeads(s, after) && KeepsPending(s.box.jobs, after)
            && forall j :: j in after ==> exists k :: k in s.box.jobs && k.seqNo == j.seqNo
  {
    var jobs := s.box.jobs;
    var after := jobs[i := Changed(jobs[i], c)];
    assert jobs[i] in jobs;
    forall j | j in after ensures j == after[i] || j in jobs {
    }
    forall j | j in after && j.status == Pending ensures PendingTicket(jobs, j.ticket, j.scope) {
    }
    forall q | q in s.queue ensures q in after {
      assert IsHead(jobs, q);
      var k :| 0 <= k < |jobs| && jobs[k] == q;
      assert after[k] == q;
    }
    forall j | j in jobs ensures HasTicket(after, j.ticket) {
      var k :| 0 <= k < |jobs| && jobs[k] == j;
      assert after[k] in after;
    }
  }

  lemma SettledInv(s: Sys, i: nat, c: Change, p: Persist)
    requires Inv(s) && s.flight.NoFlight? && i < |s.box.jobs|
    requires forall q :: q in s.queue ==> q.scope != s.box.jobs[i].scope
    requires c.Acknowledge? ==> Delivered(s, s.box.jobs[i].ticket)
    requires s.box.jobs[i].status == Pending
    ensures Inv(s.(box := Commit(s.box, s.box.jobs[i := Changed(s.box.jobs[i], c)], p)))
  {
    hide ListOk, JournalTrails, MintOk, QueueOk, FlightOk, SendsOk, DocsOk, NoNewPending, KeepsHeads, KeepsPending;
    ChangeKeepsList(s, i, c);
    SettledList(s, i, c);
    CommitKeepsInv(s, s.box.jobs[i := Changed(s.box.jobs[i], c)], p);
  }

  // ---- crash ------------------------------------------------------------------------

  lemma CrashKeepsInv(s: Sys, cfg: Config)
    requires Inv(s)
    ensures Inv(Apply(s, cfg, Crash))
  {
    hide ListOk, MintOk, FlightOk, DocsOk;
    var s' := Apply(s, cfg, Crash);
    ListExtends(s, s', s.box.journal);
    DocsKept(s, s');
    MintKept(s, s');
    Reloaded(s);
    assert FlightOk(s') by {
      NoFlightOk(s');
    }
  }

  lemma NoFlightOk(s: Sys)
    requires s.flight.NoFlight?
    ensures FlightOk(s)
  {
  }

  lemma Reloaded(s: Sys)
    requires ListOk(s, s.box.journal)
    ensures BoxOk(Load(s.box.journal, s.box.tickets)) && JournalTrails(Load(s.box.journal, s.box.tickets))
  {
    var b := Load(s.box.journal, s.box.tickets);
    forall j | j in s.box.journal ensures Supported(j) {
      assert JobOk(s, j);
    }
    forall j | j in b.journal && j.status == Pending ensures PendingTicket(b.jobs, j.ticket, j.scope) {
    }
    assert KeepsPending(b.jobs, b.journal);
  }

  // ---- one tick --------------------------------------------------------------------

  ghost predicate ScopesDistinct(heads: seq<Job>) {
    forall i, k :: 0 <= i < k < |heads| ==> heads[i].scope != heads[k].scope
  }

  ghost predicate LowestOfScope(jobs: seq<Job>, h: Job) {
    forall j :: j in jobs && j.scope == h.scope ==> h.seqNo <= j.seqNo
  }

  ghost predicate HasHead(heads: seq<Job>, scope: string) {
    exists h :: h in heads && h.scope == scope
  }

  /** `heads` holds, for every scope among `jobs`, its job with the lowest seq number. */
  ghost predicate HeadsOf(jobs: seq<Job>, heads: seq<Job>) {
    && ScopesDistinct(heads)
    && (forall h :: h in heads ==> h in jobs && LowestOfScope(jobs, h))
    && (forall j :: j in jobs ==> HasHead(heads, j.scope))
  }

  lemma {:induction false} PlaceOne(heads: seq<Job>, j: Job)
    requires ScopesDistinct(heads)
    ensures ScopesDistinct(Place(heads, j))
    ensures forall h :: h in Place(heads, j) <==>
              (h in heads && (h.scope != j.scope || h.seqNo <= j.seqNo))
              || (h == j && forall g :: g in heads && g.scope == j.scope ==> j.seqNo < g.seqNo)
  {
    if heads != [] {
      hide ScopesDistinct;
      var tail := heads[1..];
      if heads[0].scope != j.scope {
        PlaceOne(tail, j);
      }
    }
  }

  lemma PlaceCovers(heads: seq<Job>, j: Job, scope: string)
    requires ScopesDistinct(heads)
    requires scope == j.scope || HasHead(heads, scope)
    ensures HasHead(Place(heads, j), scope)
  {
    PlaceOne(heads, j);
    if scope != j.scope {
      var h :| h in heads && h.scope == scope;
      assert h in Place(heads, j);
    } else if g :| g in heads && g.scope == j.scope && g.seqNo <= j.seqNo {
      assert g in Place(heads, j);
    } else {
      assert j in Place(heads, j);
    }
  }

  lemma PlaceLowest(rest: seq<Job>, heads: seq<Job>, j: Job, h: Job)
    requires HeadsOf(rest, heads) && h in Place(heads, j)
    ensures h in rest + [j] && LowestOfScope(rest + [j], h)
  {
    hide HeadsOf, Place, ScopesDistinct;
    HeadsAreDistinct(rest, heads);
    PlaceOne(heads, j);
    forall k | k in rest + [j] && k.scope == h.scope ensures h.seqNo <= k.seqNo {
      if k in rest {
        var g := HeadOf(rest, heads, k);
      }
    }
    if h in heads { HeadIsListed(rest, heads, h); }
  }

  lemma HeadsAreDistinct(jobs: seq<Job>, heads: seq<Job>)
    requires HeadsOf(jobs, heads)
    ensures ScopesDistinct(heads)
  {
  }

  lemma HeadIsListed(jobs: seq<Job>, heads: seq<Job>, h: Job)
    requires HeadsOf(jobs, heads) && h in heads
    ensures h in jobs
  {
    hide ScopesDistinct;
  }

  /** The head of a job's scope, the only one of that scope. */
  lemma HeadOf(jobs: seq<Job>, heads: seq<Job>, k: Job) returns (g: Job)
    requires HeadsOf(jobs, heads) && k in jobs
    ensures g in heads && g.scope == k.scope && g.seqNo <= k.seqNo
    ensures forall h :: h in heads && h.scope == k.scope ==> h == g
  {
    hide ScopesDistinct;
    assert HasHead(heads, k.scope);
    g :| g in heads && g.scope == k.scope;
    assert LowestOfScope(jobs, g);
    forall h | h in heads && h.scope == k.scope ensures h == g {
      OnlyHead(heads, g, h);
    }
  }

  lemma OnlyHead(heads: seq<Job>, g: Job, h: Job)
    requires ScopesDistinct(heads) && g in heads && h in heads && g.scope == h.scope
    ensures g == h
  {
    var i :| 0 <= i < |heads| && heads[i] == g;
    var k :| 0 <= k < |heads| && heads[k] == h;
  }

  lemma PlaceHeads(rest: seq<Job>, heads: seq<Job>, j: Job)
    requires HeadsOf(rest, heads)
    ensures HeadsOf(rest + [j], Place(heads, j))
  {
    hide Place, ScopesDistinct, HasHead, LowestOfScope;
    PlaceOne(heads, j);
    forall k | k in rest + [j] ensures HasHead(Place(heads, j), k.scope) {
      PlaceCovers(heads, j, k.scope);
    }
    forall h | h in Place(heads, j) ensures h in rest + [j] && LowestOfScope(rest + [j], h) {
      PlaceLowest(rest, heads, j, h);
    }
  }

  lemma NoHeads()
    ensures HeadsOf([], [])
  {
  }

  /** The head map of a tick is exactly one lowest-seq pending job per scope. */
  lemma {:induction false} HeadsAreLowest(jobs: seq<Job>)
    ensures HeadsOf(jobs, Heads(jobs))
  {
    hide HeadsOf, Place;
    if jobs == [] {
      NoHeads();
    } else {
      var rest, j := jobs[..|jobs| - 1], jobs[|jobs| - 1];
      HeadsAreLowest(rest);
      PlaceHeads(rest, Heads(rest), j);
      assert jobs == rest + [j];
    }
  }

  /** Steps that touch only the tick: the lists and the history stay as they are. */
  lemma TickOnly(s: Sys, s': Sys)
    requires Inv(s)
    requires s' == s.(queue := s'.queue, tickNow := s'.tickNow, flight := s'.flight, sends := s'.sends)
    requires QueueOk(s') && FlightOk(s') && SendsOk(s')
    requires forall k :: k in s.sends ==> k in s'.sends
    ensures Inv(s')
  {
    hide BoxOk, ListOk, JournalTrails, MintOk, QueueOk, FlightOk, SendsOk, DocsOk;
    ListExtends(s, s', s.box.jobs);
    ListExtends(s, s', s.box.journal);
    DocsKept(s, s');
    MintKept(s, s');
  }

  lemma MintKept(s: Sys, s': Sys)
    requires MintOk(s) && s'.minted == s.minted && s'.accepted == s.accepted && s'.box.tickets == s.box.tickets
    ensures MintOk(s')
  {
  }

  lemma LowestIsHead(s: Sys, q: Job)
    requires ListOk(s, s.box.jobs)
    requires q in Heads(PendingJobs(s.box.jobs))
    ensures IsHead(s.box.jobs, q)
  {
    HeadsAreLowest(PendingJobs(s.box.jobs));
    forall j | j in s.box.jobs && j.status == Pending && j.scope == q.scope ensures q.ticket <= j.ticket {
      assert JobOk(s, j);
      assert j in PendingJobs(s.box.jobs);
    }
  }

  lemma TickBeginKeepsInv(s: Sys, now: int)
    requires Inv(s) && s.flight.NoFlight?
    ensures Inv(s.(queue := Heads(PendingJobs(s.box.jobs)), tickNow := now))
  {
    hide ListOk, JournalTrails, MintOk, SendsOk, DocsOk, IsHead, HeadsOf;
    var s' := s.(queue := Heads(PendingJobs(s.box.jobs)), tickNow := now);
    DistinctHeads(PendingJobs(s.box.jobs));
    forall q | q in s'.queue ensures IsHead(s.box.jobs, q) {
      LowestIsHead(s, q);
    }
    SendsSame(s, s');
    TickOnly(s, s');
  }

  lemma DistinctHeads(jobs: seq<Job>)
    ensures ScopesDistinct(Heads(jobs))
  {
    HeadsAreLowest(jobs);
  }

  /** Handing a head to the sender: nothing older of its scope is pending anywhere. */
  lemma SendOldest(s: Sys, j: Job)
    requires Inv(s) && IsHead(s.box.jobs, j)
    ensures SendsOk(s.(sends := s.sends + [j]))
  {
    hide DocsOk, QueueOk, FlightOk, MintOk;
    assert JobOk(s, j);
  }

  lemma TakeHeadForm(s: Sys, isPrivate: bool, allowed: bool, expected: Option<string>)
    requires s.queue != [] && s.flight.NoFlight?
    ensures var s', j := TakeHead(s, isPrivate, allowed, expected), s.queue[0];
            && s' == s.(queue := s.queue[1..], flight := s'.flight, sends := s'.sends)
            && (s'.sends == s.sends || s'.sends == s.sends + [j])
            && match s'.flight
               case NoFlight => true
               case Settling(k, o) => k == j && o != Sent
               case Reading(k) => k == j && j.payload.RecordDoc? && s'.sends == s.sends + [j]
               case Writing(k) => k == j && j.payload.ManifestDoc? && s'.sends == s.sends + [j]
  {
  }

  lemma TakeHeadKeepsInv(s: Sys, isPrivate: bool, allowed: bool, expected: Option<string>)
    requires Inv(s) && s.queue != [] && s.flight.NoFlight?
    ensures Inv(TakeHead(s, isPrivate, allowed, expected))
  {
    hide ListOk, JournalTrails, MintOk, DocsOk, SendsOk, TakeHead;
    var s' := TakeHead(s, isPrivate, allowed, expected);
    TakeHeadForm(s, isPrivate, allowed, expected);
    assert s.queue[0] in s.queue;
    SendOldest(s, s.queue[0]);
    SendsSame(s.(sends := s'.sends), s');
    TickOnly(s, s');
  }

  // ---- the backend -----------------------------------------------------------------

  lemma FlightIdentity(s: Sys)
    requires Inv(s) && !s.flight.NoFlight? && Sendable(s.flight.job)
    ensures var j := s.flight.job;
            && j.ticket in s.minted && Sendable(s.minted[j.ticket])
            && PathOf(s.minted[j.ticket]) == PathOf(j) && ContentOf(s.minted[j.ticket]) == ContentOf(j)
  {
    assert JobOk(s, s.flight.job);
  }

  /** Finding our own content already there: a replay, and from now on the path is ours. */
  lemma ClaimKeepsInv(s: Sys)
    requires Inv(s) && s.flight.Reading? && Sendable(s.flight.job)
    requires var p := PathOf(s.flight.job); p in s.docs && s.docs[p] == ContentOf(s.flight.job)
    ensures Inv(ReadBeforeWrite(s, Found))
  {
    hide BoxOk, ListOk, JournalTrails, MintOk, SendsOk;
    var s' := ReadBeforeWrite(s, Found);
    FlightIdentity(s);
    ListExtends(s, s', s.box.jobs);
    ListExtends(s, s', s.box.journal);
    forall p | p in s'.newest ensures WrittenFor(s', p) {
      assert WrittenFor(s, p);
    }
    MintKept(s, s');
    SendsSame(s, s');
  }

  lemma SendsSame(s: Sys, s': Sys)
    requires SendsOk(s) && s'.sends == s.sends && s'.box == s.box
    ensures SendsOk(s')
  {
  }

  lemma ReadKeepsInv(s: Sys, seen: Readback)
    requires Inv(s) && s.flight.Reading? && Sendable(s.flight.job)
    ensures Inv(ReadBeforeWrite(s, seen))
  {
    var j, s' := s.flight.job, ReadBeforeWrite(s, seen);
    if seen == Found && PathOf(j) in s.docs && s.docs[PathOf(j)] == ContentOf(j) {
      ClaimKeepsInv(s);
    } else {
      assert QueueOk(s') && SendsOk(s');
      TickOnly(s, s');
    }
  }

  /** The write takes effect; every earlier delivery still stands. */
  function Applied(s: Sys, j: Job, reply: Outcome): Sys
    requires Sendable(j)
  {
    s.(flight := Settling(j, reply), docs := s.docs[PathOf(j) := ContentOf(j)],
       claimed := s.claimed + {PathOf(j)}, newest := s.newest[PathOf(j) := j.ticket])
  }

  lemma WriteIsNewest(s: Sys, j: Job)
    requires Inv(s) && s.flight == Writing(j) && PathOf(j) in s.newest
    ensures PathOf(j).ManifestPath? && s.newest[PathOf(j)] <= j.ticket
  {
    var p := PathOf(j);
    assert p in s.claimed;
    assert SentTicket(s.sends, s.newest[p], p.scope);
    var k :| k in s.sends && k.ticket == s.newest[p] && k.scope == p.scope;
    assert IsHead(s.box.jobs, j);
  }

  lemma WriteExtends(s: Sys, j: Job, reply: Outcome)
    requires Inv(s) && s.flight == Writing(j) && Sendable(j)
    ensures Extends(s, Applied(s, j, reply)) && Delivered(Applied(s, j, reply), j.ticket)
  {
    var s', p := Applied(s, j, reply), PathOf(j);
    FlightIdentity(s);
    if p in s.newest {
      WriteIsNewest(s, j);
    }
    forall t | Delivered(s, t) ensures Delivered(s', t) {
      assert p.RecordPath? ==> PathOf(s.minted[t]) != p;
    }
  }

  lemma WriteKeepsDocs(s: Sys, j: Job, reply: Outcome)
    requires Inv(s) && s.flight == Writing(j) && Sendable(j)
    ensures DocsOk(Applied(s, j, reply))
  {
    var s', p := Applied(s, j, reply), PathOf(j);
    FlightIdentity(s);
    forall q | q in s'.newest ensures WrittenFor(s', q) {
      assert q != p ==> WrittenFor(s, q);
    }
    forall q | q in s'.newest && q.ManifestPath? ensures SentTicket(s'.sends, s'.newest[q], q.scope) {
      assert q != p ==> SentTicket(s.sends, s.newest[q], q.scope);
    }
  }

  lemma AppliedKeepsInv(s: Sys, j: Job, reply: Outcome)
    requires Inv(s) && s.flight == Writing(j) && Sendable(j)
    ensures Inv(Applied(s, j, reply))
  {
    hide BoxOk, ListOk, JournalTrails, MintOk, SendsOk, DocsOk, Extends, QueueOk, FlightOk;
    var s' := Applied(s, j, reply);
    WriteExtends(s, j, reply);
    WriteKeepsDocs(s, j, reply);
    AppliedFlight(s, j, reply);
    ListExtends(s, s', s.box.jobs);
    ListExtends(s, s', s.box.journal);
    MintKept(s, s');
    SendsSame(s, s');
  }

  lemma AppliedFlight(s: Sys, j: Job, reply: Outcome)
    requires QueueOk(s) && FlightOk(s) && s.flight == Writing(j) && Sendable(j)
    requires Extends(s, Applied(s, j, reply)) && Delivered(Applied(s, j, reply), j.ticket)
    ensures QueueOk(Applied(s, j, reply)) && FlightOk(Applied(s, j, reply))
  {
  }

  lemma WriteKeepsInv(s: Sys, applied: bool, reply: Outcome)
    requires Inv(s) && s.flight.Writing? && Sendable(s.flight.job)
    ensures Inv(Write(s, applied, reply))
  {
    var s' := Write(s, applied, reply);
    if applied || reply == Sent {
      AppliedKeepsInv(s, s.flight.job, reply);
    } else {
      TickOnly(s, s');
    }
  }

  lemma ClaimedAreHeld(s: Sys)
    requires Inv(s)
    ensures forall p :: p in s.claimed ==> p in s.docs
  {
  }

  lemma ForeignKeepsInv(s: Sys, docs: map<Path, string>)
    requires Inv(s)
    requires forall p :: p in s.claimed ==> p in s.docs && p in docs && docs[p] == s.docs[p]
    ensures Inv(s.(docs := docs))
  {
    hide BoxOk, ListOk, JournalTrails, MintOk, SendsOk, QueueOk;
    var s' := s.(docs := docs);
    ListExtends(s, s', s.box.jobs);
    ListExtends(s, s', s.box.journal);
    forall p | p in s'.newest ensures WrittenFor(s', p) {
      assert WrittenFor(s, p);
    }
    MintKept(s, s');
    SendsSame(s, s');
    QueueSame(s, s');
  }

  // ---- every run -------------------------------------------------------------------

  lemma InitInv()
    ensures Inv(Init)
  {
  }

  lemma DiscardEventKeepsInv(s: Sys, cfg: Config, n: nat, p: Persist)
    requires Inv(s)
    ensures Inv(Apply(s, cfg, DiscardJob(n, p)))
  {
    hide Inv;
    if exists j :: j in s.box.jobs && j.seqNo == n && j.status == Quarantined {
      DiscardKeepsInv(s, n, p);
    }
  }

  lemma RetainEventKeepsInv(s: Sys, cfg: Config, now: int, p: Persist)
    requires Inv(s)
    ensures Inv(Apply(s, cfg, Retain(now, p)))
  {
    hide Inv;
    var cutoff := now - cfg.limits.retentionMs;
    RetainKeepsInv(s, cutoff, p);
    var kept := s.(box := Commit(s.box, Filter(s.box.jobs, KeptAfter(cutoff)), p));
    var s' := Apply(s, cfg, Retain(now, p));
    assert s' == s || s' == kept;
  }

  lemma ForeignEventKeepsInv(s: Sys, cfg: Config, path: Path, content: Option<string>)
    requires Inv(s)
    ensures Inv(Apply(s, cfg, Foreign(path, content)))
  {
    var s' := Apply(s, cfg, Foreign(path, content));
    assert s' == s.(docs := s'.docs);
    ClaimedAreHeld(s);
    hide Inv;
    ForeignKeepsInv(s, s'.docs);
  }

  /** Every event, in every state the invariant allows, leads to such a state again. */
  lemma StepKeepsInv(s: Sys, cfg: Config, e: Event)
    requires Inv(s)
    ensures Inv(Apply(s, cfg, e))
  {
    hide Inv;
    match e {
      case EnqueueJob(input, ctx, p) => EnqueueKeepsInv(s, cfg, input, ctx, p);
      case TickBegin(now) => if s.flight.NoFlight? { TickBeginKeepsInv(s, now); }
      case HeadNext(isPrivate, allowed, expected) =>
        if s.queue != [] && s.flight.NoFlight? { TakeHeadKeepsInv(s, isPrivate, allowed, expected); }
      case ReadBack(seen) =>
        if s.flight.Reading? && Sendable(s.flight.job) { ReadKeepsInv(s, seen); }
      case WriteOut(applied, reply) =>
        if s.flight.Writing? && Sendable(s.flight.job) { WriteKeepsInv(s, applied, reply); }
      case Settle(isPrivate, at, reason, p) =>
        if s.flight.Settling? { SettleKeepsInv(s, cfg, isPrivate, at, reason, p); }
      case Crash => CrashKeepsInv(s, cfg);
      case DiscardJob(n, p) => DiscardEventKeepsInv(s, cfg, n, p);
      case Retain(now, p) => RetainEventKeepsInv(s, cfg, now, p);
      case Foreign(path, content) => ForeignEventKeepsInv(s, cfg, path, content);
    }
  }

  lemma {:induction false} RunKeepsInv(s: Sys, cfg: Config, events: seq<Event>)
    requires Inv(s)
    ensures Inv(Run(s, cfg, events))
    decreases |events|
  {
    if events != [] {
      StepKeepsInv(s, cfg, events[0]);
      RunKeepsInv(Apply(s, cfg, events[0]), cfg, events[1..]);
    }
  }

  /**
   * At-least-once: after any run, a job whose enqueue returned is in the journal file and not
   * yet acknowledged, or the user discarded it, or the backend holds its content.
   */
  lemma NoAcceptedJobIsLost(cfg: Config, events: seq<Event>, t: nat)
    requires t in Run(Init, cfg, events).accepted
    ensures var s := Run(Init, cfg, events);
            || t in s.discarded
            || Delivered(s, t)
            || exists j :: j in s.box.journal && j.ticket == t && j.status != Acked
                           && t in s.minted && Work(j) == Work(s.minted[t])
  {
    var s := Run(Init, cfg, events);
    InitInv();
    RunKeepsInv(Init, cfg, events);
    assert Accounted(s, s.box.journal, t);
    if HasTicket(s.box.journal, t) {
      var j :| j in s.box.journal && j.ticket == t;
      assert JobOk(s, j);
    }
  }

  /** A job is marked acknowledged, in memory or in the file, only once it was delivered. */
  lemma AckedImpliesDelivered(cfg: Config, events: seq<Event>, j: Job)
    requires var s := Run(Init, cfg, events); j in s.box.jobs || j in s.box.journal
    requires j.status == Acked
    ensures Delivered(Run(Init, cfg, events), j.ticket)
  {
    var s := Run(Init, cfg, events);
    InitInv();
    RunKeepsInv(Init, cfg, events);
    assert JobOk(s, j);
  }

  /**
   * Head-of-line order over whole runs: across retries, holds, quarantines, failed journal
   * writes and reopens, the tickets of one scope reach the sender in non-decreasing order,
   * and whatever of that scope is still pending in memory or on disk is not older.
   */
  lemma SendOrder(cfg: Config, events: seq<Event>)
    ensures var s := Run(Init, cfg, events);
            InScopeOrder(s.sends) && SentBefore(s, s.box.jobs) && SentBefore(s, s.box.journal)
  {
    InitInv();
    RunKeepsInv(Init, cfg, events);
  }

  /** Persist before side effect: whatever an event hands to the sender is in the journal file. */
  lemma PersistedBeforeSend(cfg: Config, events: seq<Event>, e: Event)
    requires |Apply(Run(Init, cfg, events), cfg, e).sends| > |Run(Init, cfg, events).sends|
    ensures var s, s' := Run(Init, cfg, events), Apply(Run(Init, cfg, events), cfg, e);
            var j := s'.sends[|s'.sends| - 1];
            && s'.sends == s.sends + [j]
            && s'.box.journal == s.box.journal
            && exists k :: k in s.box.journal && k.ticket == j.ticket && k.opId == j.opId
  {
    hide Inv, Run, Apply, TakeHead;
    var s := Run(Init, cfg, events);
    InitInv();
    RunKeepsInv(Init, cfg, events);
    SendsOnlyHeads(s, cfg, e);
    TakeHeadForm(s, e.isPrivate, e.allowed, e.expected);
    HeadIsInFile(s);
  }

  lemma HeadIsInFile(s: Sys)
    requires Inv(s) && s.queue != []
    ensures exists k :: k in s.box.journal && k.ticket == s.queue[0].ticket && k.opId == s.queue[0].opId
  {
    hide DocsOk, SendsOk, FlightOk, MintOk;
    var j := s.queue[0];
    assert j in s.queue;
    assert HasTicket(s.box.journal, j.ticket);
    var k :| k in s.box.journal && k.ticket == j.ticket;
    assert JobOk(s, k) && JobOk(s, j);
    assert Work(k) == Work(j);
  }

  /** Only taking a due head reaches the sender. */
  lemma SendsOnlyHeads(s: Sys, cfg: Config, e: Event)
    requires |Apply(s, cfg, e).sends| > |s.sends|
    ensures e.HeadNext? && s.queue != [] && s.flight.NoFlight?
    ensures Apply(s, cfg, e) == TakeHead(s, e.isPrivate, e.allowed, e.expected)
  {
    hide Discard, RunRetention, Mutate, Load, Heads, TakeHead, Enqueue;
  }

  // ---- what later events cannot undo -----------------------------------------------

  /** From one moment of a run to a later one. */
  ghost predicate Persists(s: Sys, s': Sys) {
    && s.claimed <= s'.claimed
    && (forall p :: p in s.claimed && p.RecordPath? ==>
          p in s.docs && p in s'.docs && s'.docs[p] == s.docs[p])
    && (forall p :: p in s.newest ==> p in s'.newest && s.newest[p] <= s'.newest[p])
  }

  lemma WriteIsSafe(s: Sys)
    requires Inv(s) && s.flight.Writing? && Sendable(s.flight.job)
    ensures var p := PathOf(s.flight.job);
            (p.RecordPath? ==> p !in s.claimed) && (p in s.newest ==> s.newest[p] <= s.flight.job.ticket)
  {
    if PathOf(s.flight.job) in s.newest {
      WriteIsNewest(s, s.flight.job);
    }
  }

  lemma StepPersists(s: Sys, cfg: Config, e: Event)
    requires Inv(s)
    ensures Persists(s, Apply(s, cfg, e))
  {
    hide Inv, Apply, Persists;
    if e.WriteOut? {
      WriteOutPersists(s, cfg, e);
    } else {
      OtherStepPersists(s, cfg, e);
    }
  }

  lemma WriteOutPersists(s: Sys, cfg: Config, e: Event)
    requires Inv(s) && e.WriteOut?
    ensures Persists(s, Apply(s, cfg, e))
  {
    hide Inv, PathOf, ContentOf;
    ClaimedAreHeld(s);
    if s.flight.Writing? && Sendable(s.flight.job) {
      WriteIsSafe(s);
    }
  }

  lemma OtherStepPersists(s: Sys, cfg: Config, e: Event)
    requires Inv(s) && !e.WriteOut?
    ensures Persists(s, Apply(s, cfg, e))
  {
    hide Inv, Enqueue, Discard, RunRetention, Mutate, Load, Heads, TakeHead, Persists;
    if s.queue != [] && s.flight.NoFlight? && e.HeadNext? {
      TakeHeadForm(s, e.isPrivate, e.allowed, e.expected);
    }
    if e.Foreign? {
      ForeignPersists(s, cfg, e);
    } else {
      KeptPersists(s, Apply(s, cfg, e));
    }
  }

  lemma KeptPersists(s: Sys, s': Sys)
    requires Inv(s) && s.claimed <= s'.claimed && s'.docs == s.docs && s'.newest == s.newest
    ensures Persists(s, s')
  {
    hide Inv;
    ClaimedAreHeld(s);
  }

  lemma ForeignPersists(s: Sys, cfg: Config, e: Event)
    requires Inv(s) && e.Foreign?
    ensures Persists(s, Apply(s, cfg, e))
  {
    hide Inv;
    ClaimedAreHeld(s);
  }

  lemma {:induction false} RunPersists(s: Sys, cfg: Config, events: seq<Event>)
    requires Inv(s)
    ensures Persists(s, Run(s, cfg, events))
    decreases |events|
  {
    if events != [] {
      StepKeepsInv(s, cfg, events[0]);
      StepPersists(s, cfg, events[0]);
      RunPersists(Apply(s, cfg, events[0]), cfg, events[1..]);
    }
  }

  /** Write-once: an immutable path that is ours never changes content again. */
  lemma ImmutablePathsStay(cfg: Config, first: seq<Event>, rest: seq<Event>, p: Path)
    requires p.RecordPath? && p in Run(Init, cfg, first).claimed
    ensures var s, s' := Run(Init, cfg, first), Run(Init, cfg, first + rest);
            p in s.docs && p in s'.docs && s'.docs[p] == s.docs[p]
  {
    InitInv();
    RunKeepsInv(Init, cfg, first);
    RunPersists(Run(Init, cfg, first), cfg, rest);
    RunConcat(Init, cfg, first, rest);
  }

  /** The mutable manifest never goes back: what it holds later was enqueued no earlier. */
  lemma ManifestNeverGoesBack(cfg: Config, first: seq<Event>, rest: seq<Event>, p: Path)
    requires p.ManifestPath? && p in Run(Init, cfg, first).newest
    ensures var s, s' := Run(Init, cfg, first), Run(Init, cfg, first + rest);
            && WrittenFor(s, p) && WrittenFor(s', p)
            && s.newest[p] <= s'.newest[p]
  {
    InitInv();
    RunKeepsInv(Init, cfg, first);
    RunKeepsInv(Init, cfg, first + rest);
    RunPersists(Run(Init, cfg, first), cfg, rest);
    RunConcat(Init, cfg, first, rest);
  }
}
