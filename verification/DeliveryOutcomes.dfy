/**
 * What the worker makes of each delivery: when a head reaches the sender, why a delivery fails, and
 * what the journal says of the job afterwards, over single events and over whole runs.
 */
module DeliveryOutcomes {
  import opened Common
  import JournalRules
  import opened Outbox
  import opened OutboxSystem
  import opened OutboxSafety
  import opened Worker

  // ---- reaching the sender -------------------------------------------------------------

  /**
   * A head reaches the sender exactly when it is due, the private gate is open at both looks, its
   * target is still the expected one, and its operation id is on record. One that is not due, held
   * by the gate or bound for another target is passed by, and nothing else changes.
   */
  lemma SentIff(s: Sys, cfg: Config, isPrivate: bool, allowed: bool, expected: Option<string>)
    requires s.queue != [] && s.flight.NoFlight?
    ensures var j, t := s.queue[0], Apply(s, cfg, HeadNext(isPrivate, allowed, expected));
            var passes := j.nextAttemptAt <= s.tickNow && !isPrivate && (j.target.Some? && expected.Some? ==> j.target == expected);
            && (t.sends == s.sends + [j] <==> passes && allowed && exists k :: k in s.box.jobs && k.opId == j.opId)
            && (t.sends == s.sends + [j] || t.sends == s.sends)
            && (!passes ==> t == s.(queue := s.queue[1..]))
  {
    var j, t := s.queue[0], TakeHead(s, isPrivate, allowed, expected);
    assert Apply(s, cfg, HeadNext(isPrivate, allowed, expected)) == t;
    assert |s.sends + [j]| == |s.sends| + 1;
    hide Apply;
  }

  /** Why a delivery ends as it does: what came back from outside, or what stood at the path. */
  lemma OutcomeHasACause(s: Sys, cfg: Config, e: Event)
    requires !s.flight.Settling? && Apply(s, cfg, e).flight.Settling?
    ensures var o := Apply(s, cfg, e).flight.outcome;
            && (o == Failed(Availability) <==>
                  (e.ReadBack? && e.seen == ReadFault(Availability)) || (e.WriteOut? && e.reply == Failed(Availability)))
            && (o == Failed(PrivateModeActive) <==>
                  || (e.HeadNext? && !e.allowed)
                  || (e.ReadBack? && e.seen == ReadFault(PrivateModeActive))
                  || (e.WriteOut? && e.reply == Failed(PrivateModeActive)))
            && (o == Sent <==>
                  || (e.WriteOut? && e.reply == Sent)
                  || (e.ReadBack? && e.seen.Found? && s.flight.Reading? && Sendable(s.flight.job)
                      && var p := PathOf(s.flight.job); p in s.docs && s.docs[p] == ContentOf(s.flight.job)))
  {
    hide Enqueue, Discard, RunRetention, Load, Heads, TakeHead, ReadBeforeWrite, PathOf, ContentOf, Mutate;
    if e.HeadNext? && s.queue != [] && s.flight.NoFlight? { HeadOutcome(s, e.isPrivate, e.allowed, e.expected); }
    if e.ReadBack? && s.flight.Reading? && Sendable(s.flight.job) { ReadOutcome(s, e.seen); }
  }

  lemma HeadOutcome(s: Sys, isPrivate: bool, allowed: bool, expected: Option<string>)
    requires s.queue != [] && s.flight.NoFlight?
    ensures var f := TakeHead(s, isPrivate, allowed, expected).flight;
            f.Settling? ==> f.outcome == (if allowed then Failed(Permanent) else Failed(PrivateModeActive))
  {
    hide HasOpId;
  }

  lemma ReadOutcome(s: Sys, seen: Readback)
    requires s.flight.Reading? && Sendable(s.flight.job)
    ensures var f, p := ReadBeforeWrite(s, seen).flight, PathOf(s.flight.job);
            f.Settling? ==>
              f.outcome == (if seen.ReadFault? then Failed(seen.error)
                            else if seen.Found? && p in s.docs && s.docs[p] == ContentOf(s.flight.job) then Sent
                            else Failed(Permanent))
  {
  }

  // ---- what is recorded -----------------------------------------------------------------

  /** The job at `i` became `k`, in memory and file, unless the rewrite failed. */
  ghost predicate Became(s: Sys, t: Sys, i: nat, k: Job, p: Persist)
    requires i < |s.box.jobs|
  {
    var after := s.box.jobs[i := k];
    if p == Written then t.box == s.box.(jobs := after, journal := after)
    else t.box == s.box || t.box == s.box.(journal := after)
  }

  /**
   * The end of a delivery. Nothing is recorded in private mode, except that what was sent is
   * acknowledged; a transient failure below the limit leaves the job pending, one attempt on and due
   * later; any other failure quarantines it. No other job changes.
   */
  lemma SettleSays(s: Sys, cfg: Config, isPrivate: bool, at: int, reason: string, p: Persist) returns (i: nat)
    requires Inv(s) && s.flight.Settling?
    ensures i < |s.box.jobs| && s.box.jobs[i] == s.flight.job && s.flight.job.status == Pending
    ensures var j, o, t := s.flight.job, s.flight.outcome, Apply(s, cfg, Settle(isPrivate, at, reason, p));
            && t == s.(box := t.box, flight := NoFlight)
            && (o == Sent ==> Became(s, t, i, j.(status := Acked, ackedAt := Some(at)), p))
            && (o.Failed? && (isPrivate || o.error == PrivateModeActive) ==> t.box == s.box)
            && (o == Failed(Availability) && !isPrivate && j.attempts + 1 < cfg.maxAttempts ==>
                  Became(s, t, i, j.(attempts := j.attempts + 1, nextAttemptAt := at), p))
            && (o == Failed(Availability) && !isPrivate && j.attempts + 1 >= cfg.maxAttempts ==>
                  Became(s, t, i, j.(status := Quarantined, lastError := Some(reason)), p))
            && (o == Failed(Permanent) && !isPrivate ==>
                  Became(s, t, i, j.(status := Quarantined, lastError := Some(reason)), p))
  {
    hide Inv, IsHead, Ordered, Delivered, Became, Commit;
    FlightIsHead(s);
    i := SettleForm(s, cfg, isPrivate, at, reason, p);
    var j := s.flight.job;
    CommitIsBecame(s, i, j.(status := Acked, ackedAt := Some(at)), p);
    CommitIsBecame(s, i, j.(attempts := j.attempts + 1, nextAttemptAt := at), p);
    CommitIsBecame(s, i, j.(status := Quarantined, lastError := Some(reason)), p);
  }

  lemma CommitIsBecame(s: Sys, i: nat, k: Job, p: Persist)
    requires Inv(s) && i < |s.box.jobs| && k.schemaVersion == s.box.jobs[i].schemaVersion
    ensures Became(s, s.(flight := NoFlight, box := Commit(s.box, s.box.jobs[i := k], p)), i, k, p)
  {
    hide Inv;
    ChangedIsWritable(s, i, k);
  }

  lemma ChangedIsWritable(s: Sys, i: nat, k: Job)
    requires Inv(s) && i < |s.box.jobs| && k.schemaVersion == s.box.jobs[i].schemaVersion
    ensures Body(s.box.jobs[i := k]) == s.box.jobs[i := k]
  {
    var after := s.box.jobs[i := k];
    assert s.box.jobs[i] in s.box.jobs && JobOk(s, s.box.jobs[i]);
    forall j | j in after ensures Supported(j) {
      assert j == k || j in s.box.jobs;
      assert j in s.box.jobs ==> JobOk(s, j);
    }
    BodyKeeps(after);
  }

  // ---- over whole runs ---------------------------------------------------------------------

  ghost predicate QuarantinedIn(jobs: seq<Job>, t: nat) {
    exists j :: j in jobs && j.ticket == t && j.status == Quarantined
  }

  /** The end of a delivery of job `t` that failed outside private mode, permanently or for the last allowed time. */
  ghost predicate FailsForGood(s: Sys, cfg: Config, e: Event, t: nat) {
    && e.Settle? && !e.isPrivate && s.flight.Settling? && s.flight.job.ticket == t
    && (s.flight.outcome == Failed(Permanent)
        || (s.flight.outcome == Failed(Availability) && s.flight.job.attempts + 1 >= cfg.maxAttempts))
  }

  lemma FilterQuarantined(jobs: seq<Job>, keep: Job -> bool, t: nat)
    requires QuarantinedIn(Filter(jobs, keep), t)
    ensures QuarantinedIn(jobs, t)
  {
  }

  lemma CommitQuarantined(b: Box, after: seq<Job>, p: Persist, t: nat)
    requires QuarantinedIn(after, t) ==> QuarantinedIn(b.jobs, t)
    requires QuarantinedIn(Commit(b, after, p).jobs, t) || QuarantinedIn(Commit(b, after, p).journal, t)
    ensures QuarantinedIn(b.jobs, t) || QuarantinedIn(b.journal, t)
  {
    if QuarantinedIn(Body(after), t) { FilterQuarantined(after, Supported, t); }
    hide QuarantinedIn;
  }

  lemma AppendQuarantined(jobs: seq<Job>, j: Job, t: nat)
    requires QuarantinedIn(jobs + [j], t) && j.status != Quarantined
    ensures QuarantinedIn(jobs, t)
  {
  }

  lemma BecameQuarantined(s: Sys, t: Sys, i: nat, k: Job, p: Persist, ticket: nat)
    requires i < |s.box.jobs| && Became(s, t, i, k, p)
    requires k.ticket == ticket ==> k.status != Quarantined
    requires QuarantinedIn(t.box.jobs, ticket) || QuarantinedIn(t.box.journal, ticket)
    ensures QuarantinedIn(s.box.jobs, ticket) || QuarantinedIn(s.box.journal, ticket)
  {
    var after := s.box.jobs[i := k];
    assert forall j :: j in after ==> j == k || j in s.box.jobs;
  }

  lemma SettleQuarantines(s: Sys, cfg: Config, e: Event, t: nat)
    requires Inv(s) && e.Settle?
    requires var b := Apply(s, cfg, e).box; QuarantinedIn(b.jobs, t) || QuarantinedIn(b.journal, t)
    ensures QuarantinedIn(s.box.jobs, t) || QuarantinedIn(s.box.journal, t) || FailsForGood(s, cfg, e, t)
  {
    hide Inv, QuarantinedIn, Became;
    if s.flight.Settling? {
      var i := SettleSays(s, cfg, e.isPrivate, e.at, e.reason, e.persist);
      hide Apply;
      var j, u := s.flight.job, Apply(s, cfg, e);
      match s.flight.outcome {
        case Sent => BecameQuarantined(s, u, i, j.(status := Acked, ackedAt := Some(e.at)), e.persist, t);
        case Failed(error) =>
          if e.isPrivate || error == PrivateModeActive {
          } else if error == Availability && j.attempts + 1 < cfg.maxAttempts {
            BecameQuarantined(s, u, i, j.(attempts := j.attempts + 1, nextAttemptAt := e.at), e.persist, t);
          } else if j.ticket != t {
            BecameQuarantined(s, u, i, j.(status := Quarantined, lastError := Some(e.reason)), e.persist, t);
          }
      }
    }
  }

  lemma StepQuarantines(s: Sys, cfg: Config, e: Event, t: nat)
    requires Inv(s)
    requires var b := Apply(s, cfg, e).box; QuarantinedIn(b.jobs, t) || QuarantinedIn(b.journal, t)
    ensures QuarantinedIn(s.box.jobs, t) || QuarantinedIn(s.box.journal, t) || FailsForGood(s, cfg, e, t)
  {
    hide Inv, QuarantinedIn, FailsForGood, Apply;
    if e.EnqueueJob? || e.DiscardJob? || e.Retain? {
      StoreStepQuarantines(s, cfg, e, t);
    } else if e.Settle? {
      SettleQuarantines(s, cfg, e, t);
      hide Commit, SettleJob;
    } else {
      OtherStepKeepsTheBox(s, cfg, e, t);
    }
  }

  lemma StoreStepQuarantines(s: Sys, cfg: Config, e: Event, t: nat)
    requires e.EnqueueJob? || e.DiscardJob? || e.Retain?
    requires var b := Apply(s, cfg, e).box; QuarantinedIn(b.jobs, t) || QuarantinedIn(b.journal, t)
    ensures QuarantinedIn(s.box.jobs, t) || QuarantinedIn(s.box.journal, t)
  {
    hide QuarantinedIn, Commit, Filter, EnqueueRefusal;
    match e {
      case EnqueueJob(input, ctx, p) => EnqueueQuarantines(s, cfg, input, ctx, p, t);
      case DiscardJob(n, p) =>
        if Apply(s, cfg, e).box != s.box { RemovalQuarantines(s.box, OtherThan(n), p, t); }
      case Retain(now, p) =>
        if Apply(s, cfg, e).box != s.box { RemovalQuarantines(s.box, KeptAfter(now - cfg.limits.retentionMs), p, t); }
    }
  }

  lemma OtherStepKeepsTheBox(s: Sys, cfg: Config, e: Event, t: nat)
    requires !e.EnqueueJob? && !e.DiscardJob? && !e.Retain? && !e.Settle?
    requires var b := Apply(s, cfg, e).box; QuarantinedIn(b.jobs, t) || QuarantinedIn(b.journal, t)
    ensures QuarantinedIn(s.box.jobs, t) || QuarantinedIn(s.box.journal, t)
  {
    hide QuarantinedIn, Body, Heads, TakeHead;
    if e.HeadNext? && s.queue != [] && s.flight.NoFlight? { TakeHeadForm(s, e.isPrivate, e.allowed, e.expected); }
  }

  lemma RemovalQuarantines(b: Box, keep: Job -> bool, p: Persist, t: nat)
    requires var after := Commit(b, Filter(b.jobs, keep), p); QuarantinedIn(after.jobs, t) || QuarantinedIn(after.journal, t)
    ensures QuarantinedIn(b.jobs, t) || QuarantinedIn(b.journal, t)
  {
    hide QuarantinedIn, Commit;
    if QuarantinedIn(Filter(b.jobs, keep), t) { FilterQuarantined(b.jobs, keep, t); }
    CommitQuarantined(b, Filter(b.jobs, keep), p, t);
  }

  lemma EnqueueQuarantines(s: Sys, cfg: Config, input: EnqueueInput, ctx: EnqueueContext, p: Persist, t: nat)
    requires var b := Accept(s, cfg, input, ctx, p).box; QuarantinedIn(b.jobs, t) || QuarantinedIn(b.journal, t)
    ensures QuarantinedIn(s.box.jobs, t) || QuarantinedIn(s.box.journal, t)
  {
    hide QuarantinedIn, Commit, EnqueueRefusal;
    if EnqueueRefusal(s.box, input, ctx, cfg.limits).None? {
      var after := s.box.jobs + [NewJob(s.box, input, ctx)];
      if QuarantinedIn(after, t) { AppendQuarantined(s.box.jobs, NewJob(s.box, input, ctx), t); }
      CommitQuarantined(s.box, after, p, t);
    }
  }

  /**
   * In every run a job is quarantined, in memory or in the file, only because some delivery of it
   * failed permanently, or transiently for the last allowed time, outside private mode.
   */
  lemma {:induction false} QuarantinedOnlyAfterFailing(cfg: Config, events: seq<Event>, t: nat) returns (n: nat)
    requires var b := Run(Init, cfg, events).box; QuarantinedIn(b.jobs, t) || QuarantinedIn(b.journal, t)
    ensures n < |events| && FailsForGood(Run(Init, cfg, events[..n]), cfg, events[n], t)
    decreases |events|
  {
    hide QuarantinedIn, FailsForGood, Apply, Inv;
    n := 0;
    if events == [] {
      NothingQuarantined(t);
    } else {
      var init, e := events[..|events| - 1], events[|events| - 1];
      assert events == init + [e];
      RunConcat(Init, cfg, init, [e]);
      var s := Run(Init, cfg, init);
      assert Run(s, cfg, [e]) == Run(Apply(s, cfg, e), cfg, []);
      InitInv();
      RunKeepsInv(Init, cfg, init);
      StepQuarantines(s, cfg, e, t);
      n := |init|;
      if !FailsForGood(s, cfg, e, t) {
        n := QuarantinedOnlyAfterFailing(cfg, init, t);
        assert init[..n] == events[..n];
      }
    }
  }

  lemma NothingQuarantined(t: nat)
    ensures !QuarantinedIn(Init.box.jobs, t) && !QuarantinedIn(Init.box.journal, t)
  {
  }

  // ---- how often a job is tried ----------------------------------------------------------------

  ghost predicate AttemptsBelow(jobs: seq<Job>, limit: nat) {
    forall j :: j in jobs ==> j.attempts < limit
  }

  ghost predicate BoxBelow(b: Box, limit: nat) {
    AttemptsBelow(b.jobs, limit) && AttemptsBelow(b.journal, limit)
  }

  lemma CommitBelow(b: Box, after: seq<Job>, p: Persist, limit: nat)
    requires BoxBelow(b, limit) && AttemptsBelow(after, limit)
    ensures BoxBelow(Commit(b, after, p), limit)
  {
  }

  lemma BecameBelow(s: Sys, t: Sys, i: nat, k: Job, p: Persist, limit: nat)
    requires i < |s.box.jobs| && Became(s, t, i, k, p) && BoxBelow(s.box, limit) && k.attempts < limit
    ensures BoxBelow(t.box, limit)
  {
    assert forall j :: j in s.box.jobs[i := k] ==> j == k || j in s.box.jobs;
  }

  lemma SettleBelow(s: Sys, cfg: Config, e: Event, limit: nat)
    requires Inv(s) && e.Settle? && BoxBelow(s.box, limit) && limit == Max(1, cfg.maxAttempts)
    ensures BoxBelow(Apply(s, cfg, e).box, limit)
  {
    hide Inv, BoxBelow, Became;
    if s.flight.Settling? {
      var i := SettleSays(s, cfg, e.isPrivate, e.at, e.reason, e.persist);
      hide Apply;
      var j, u := s.flight.job, Apply(s, cfg, e);
      JobBelow(s, j, limit);
      match s.flight.outcome {
        case Sent => BecameBelow(s, u, i, j.(status := Acked, ackedAt := Some(e.at)), e.persist, limit);
        case Failed(error) =>
          if e.isPrivate || error == PrivateModeActive {
          } else if error == Availability && j.attempts + 1 < cfg.maxAttempts {
            BecameBelow(s, u, i, j.(attempts := j.attempts + 1, nextAttemptAt := e.at), e.persist, limit);
          } else {
            BecameBelow(s, u, i, j.(status := Quarantined, lastError := Some(e.reason)), e.persist, limit);
          }
      }
    }
  }

  lemma JobBelow(s: Sys, j: Job, limit: nat)
    requires BoxBelow(s.box, limit) && j in s.box.jobs
    ensures j.attempts < limit
  {
  }

  lemma StepBelow(s: Sys, cfg: Config, e: Event, limit: nat)
    requires Inv(s) && BoxBelow(s.box, limit) && limit == Max(1, cfg.maxAttempts)
    ensures BoxBelow(Apply(s, cfg, e).box, limit)
  {
    hide Inv, Commit, Heads, TakeHead, SettleJob, EnqueueRefusal;
    match e {
      case EnqueueJob(input, ctx, p) =>
        if EnqueueRefusal(s.box, input, ctx, cfg.limits).None? {
          CommitBelow(s.box, s.box.jobs + [NewJob(s.box, input, ctx)], p, limit);
        }
      case DiscardJob(n, p) => CommitBelow(s.box, Filter(s.box.jobs, OtherThan(n)), p, limit);
      case Retain(now, p) => CommitBelow(s.box, Filter(s.box.jobs, KeptAfter(now - cfg.limits.retentionMs)), p, limit);
      case HeadNext(isPrivate, allowed, expected) =>
        if s.queue != [] && s.flight.NoFlight? { TakeHeadForm(s, isPrivate, allowed, expected); }
      case Settle(_, _, _, _) => SettleBelow(s, cfg, e, limit);
      case _ =>
    }
  }

  lemma {:induction false} RunBelow(s: Sys, cfg: Config, events: seq<Event>, limit: nat)
    requires Inv(s) && BoxBelow(s.box, limit) && limit == Max(1, cfg.maxAttempts)
    ensures BoxBelow(Run(s, cfg, events).box, limit)
    decreases |events|
  {
    hide Inv, BoxBelow, Apply;
    if events != [] {
      StepKeepsInv(s, cfg, events[0]);
      StepBelow(s, cfg, events[0], limit);
      RunBelow(Apply(s, cfg, events[0]), cfg, events[1..], limit);
    }
  }

  /** In every run no job, in memory or in the file, has been tried in vain as often as the limit allows. */
  lemma AttemptsStayBelow(cfg: Config, events: seq<Event>, j: Job)
    requires var b := Run(Init, cfg, events).box; j in b.jobs || j in b.journal
    ensures j.attempts < Max(1, cfg.maxAttempts)
  {
    hide Run, Inv;
    InitInv();
    RunBelow(Init, cfg, events, Max(1, cfg.maxAttempts));
  }

  // ---- what a tick reports -----------------------------------------------------------------------

  ghost predicate Stands(b: Box, j: Job, status: Status) {
    exists k :: k in b.jobs && k.ticket == j.ticket && k.status == status
  }

  /** One attempt on, and still pending. */
  ghost predicate TriedAgain(b: Box, j: Job) {
    exists k :: k in b.jobs && k.ticket == j.ticket && k.status == Pending && k.attempts == j.attempts + 1
  }

  lemma OnlyAt(jobs: seq<Job>, i: nat, k: Job, status: Status)
    requires Ordered(jobs) && i < |jobs| && k.ticket == jobs[i].ticket
    ensures forall h :: h in jobs[i := k] && h.ticket == k.ticket ==> h == k
    ensures k in jobs[i := k]
  {
    var after := jobs[i := k];
    assert after[i] == k;
    forall h | h in after && h.ticket == k.ticket ensures h == k {
      var n :| 0 <= n < |after| && after[n] == h;
    }
  }

  lemma NewStanding(b: Box, i: nat, k: Job, p: Persist, status: Status)
    requires Ordered(b.jobs) && i < |b.jobs| && k.ticket == b.jobs[i].ticket && b.jobs[i].status == Pending
    requires k.status == Pending ==> k.attempts == b.jobs[i].attempts + 1
    ensures var after := Commit(b, b.jobs[i := k], p); var now := if p == Written then k else b.jobs[i];
            && (Stands(after, k, status) <==> now.status == status)
            && (TriedAgain(after, b.jobs[i]) <==> p == Written && k.status == Pending)
  {
    OnlyAt(b.jobs, i, k, status);
    OnlyAt(b.jobs, i, b.jobs[i], status);
    assert b.jobs[i := b.jobs[i]] == b.jobs;
    hide Ordered, Body;
  }

  /** What the worker notes about one head, read off the states before and after. */
  ghost predicate TrueReport(before: Box, after: Box, j: Job, news: Summary) {
    && news.quarantined == (if Stands(after, j, Quarantined) then [j.opId] else [])
    && news.retried == (if TriedAgain(after, j) then [j.opId] else [])
    && (Stands(after, j, Acked) <==> news.sent == [j.opId] && news.pendingAck == [])
    && (news.pendingAck != [] ==> news.pendingAck == news.sent == [j.opId] && after.jobs == before.jobs)
    && (news.held != [] ==> news.held == [j.opId] && after == before)
    && |news.sent| + |news.retried| + |news.quarantined| + |news.held| <= 1
  }

  lemma RecordedIsTrue(b: Box, i: nat, o: Outcome, w: World, maxAttempts: nat)
    requires Ordered(b.jobs) && i < |b.jobs| && b.jobs[i].status == Pending && !b.readOnly && Supported(b.jobs[i])
    ensures var (after, news) := Recorded(b, b.jobs[i], o, w, maxAttempts);
            && TrueReport(b, after, b.jobs[i], news)
            && (w.persist == Written ==> |news.sent| + |news.retried| + |news.quarantined| + |news.held| == 1)
            && (news.sent != [] ==> news.sent == [b.jobs[i].opId] && o == Sent)
  {
    hide Stands, TriedAgain, Ordered;
    var job := b.jobs[i];
    AtItsNumber(b.jobs, i);
    NothingYet(b, i);
    var v := Verdict(job, o, w.privateAfter, w.at, w.reason, maxAttempts);
    if v.Some? {
      var k := Changed(job, v.value);
      NewStanding(b, i, k, w.persist, Acked);
      NewStanding(b, i, k, w.persist, Quarantined);
      SameTicketStands(Commit(b, b.jobs[i := k], w.persist), job, k);
    }
  }

  lemma SameTicketStands(b: Box, j: Job, k: Job)
    requires j.ticket == k.ticket
    ensures forall status :: Stands(b, j, status) <==> Stands(b, k, status)
  {
  }

  lemma AtItsNumber(jobs: seq<Job>, i: nat)
    requires Ordered(jobs) && i < |jobs|
    ensures IndexOfSeq(jobs, jobs[i].seqNo) == Some(i)
  {
  }

  lemma NothingYet(b: Box, i: nat)
    requires Ordered(b.jobs) && i < |b.jobs| && b.jobs[i].status == Pending
    ensures !Stands(b, b.jobs[i], Acked) && !Stands(b, b.jobs[i], Quarantined) && !TriedAgain(b, b.jobs[i])
  {
    OnlyAt(b.jobs, i, b.jobs[i], Pending);
    assert b.jobs[i := b.jobs[i]] == b.jobs;
    hide Ordered;
  }

  /**
   * The report of a tick tells the truth about each head: what it lists as sent is on the backend,
   * what it lists as quarantined or retried is so in the journal, what it holds is untouched, and a
   * head that is due is in exactly one list unless its rewrite failed.
   */
  lemma HeadReportIsTrue(s: Sys, cfg: Config, w: World)
    requires Inv(s) && s.queue != [] && s.flight.NoFlight?
    ensures var j, t, news := s.queue[0], Run(s, cfg, HeadEvents(w)), HeadReport(s, cfg, w);
            && TrueReport(s.box, t.box, j, news)
            && (news.sent != [] ==> news.sent == [j.opId] && Delivered(t, j.ticket))
            && (j.nextAttemptAt <= s.tickNow && w.persist == Written ==>
                  |news.sent| + |news.retried| + |news.quarantined| + |news.held| == 1)
            && (j.nextAttemptAt > s.tickNow ==> news == NoNews && t.box == s.box)
  {
    hide Inv, Run, Recorded, Outgoing, Delivered, TrueReport, HeadEvents;
    HeadRun(s, cfg, w);
    var i := HeadPlace(s);
    var j := s.queue[0];
    if Passes(s, w) {
      var o := Outgoing(s.box.jobs, s.docs, j, w).0;
      RecordedIsTrue(s.box, i, o, w, cfg.maxAttempts);
      if o == Sent { SentIsDelivered(s, cfg, w); }
    } else {
      QuietIsTrue(s.box, i);
    }
  }

  lemma HeadPlace(s: Sys) returns (i: nat)
    requires Inv(s) && s.queue != []
    ensures i < |s.box.jobs| && s.box.jobs[i] == s.queue[0]
    ensures Ordered(s.box.jobs) && s.box.jobs[i].status == Pending && !s.box.readOnly && Supported(s.box.jobs[i])
  {
    var j := s.queue[0];
    assert j in s.queue && IsHead(s.box.jobs, j) && JobOk(s, j);
    i :| 0 <= i < |s.box.jobs| && s.box.jobs[i] == j;
  }

  lemma QuietIsTrue(b: Box, i: nat)
    requires Ordered(b.jobs) && i < |b.jobs| && b.jobs[i].status == Pending
    ensures TrueReport(b, b, b.jobs[i], NoNews)
    ensures TrueReport(b, b, b.jobs[i], NoNews.(held := [b.jobs[i].opId]))
  {
    hide Stands, TriedAgain, Ordered;
    NothingYet(b, i);
  }

  lemma SentIsDelivered(s: Sys, cfg: Config, w: World)
    requires Inv(s) && s.queue != [] && s.flight.NoFlight? && Passes(s, w)
    requires Outgoing(s.box.jobs, s.docs, s.queue[0], w).0 == Sent
    ensures Delivered(Run(s, cfg, HeadEvents(w)), s.queue[0].ticket)
  {
    hide Inv, Run, Apply, TakeHead, ReadStep, WriteStep, SettleStep, Outgoing, Passes, HeadEvents, Delivered;
    var es := HeadEvents(w);
    FourHeadEvents(w);
    HeadSteps(s, cfg, w);
    SendSteps(s, w);
    ApplyHeadEvents(s, cfg, w);
    var s1 := TakeHead(s, w.isPrivate, w.allowed, w.expected);
    ApplyLaterEvents(s1, cfg, w);
    StepKeepsInv(s, cfg, es[0]);
    StepKeepsInv(s1, cfg, es[1]);
    StepKeepsInv(ReadStep(s1, w), cfg, es[2]);
    SettledStaysDelivered(WriteStep(ReadStep(s1, w), w), cfg, w);
  }

  lemma FourHeadEvents(w: World)
    ensures |HeadEvents(w)| == 4
  {
  }

  lemma SettledStaysDelivered(s: Sys, cfg: Config, w: World)
    requires Inv(s) && s.flight.Settling? && s.flight.outcome == Sent
    ensures Delivered(SettleStep(s, cfg, w), s.flight.job.ticket)
  {
    hide BoxOk, ListOk, JournalTrails, MintOk, QueueOk, SendsOk, DocsOk, Mutate;
  }

  // ---- retention ----------------------------------------------------------------------------------------

  /** Once retention ran, no job acknowledged long enough ago is left, in memory or in the file; no other was dropped. */
  lemma RetentionClearsTheJournal(cfg: Config, events: seq<Event>, now: int, j: Job)
    requires !Run(Init, cfg, events).box.readOnly
    requires exists x :: x in Run(Init, cfg, events).box.jobs && JournalRules.Expired(x, now, cfg.limits)
    ensures var s := Run(Init, cfg, events);
            var t := Apply(s, cfg, Retain(now, Written));
            (j in t.box.jobs <==> j in s.box.jobs && !JournalRules.Expired(j, now, cfg.limits))
            && (j in t.box.journal ==> j in t.box.jobs)
  {
    var s := Run(Init, cfg, events);
    var keep := JournalRules.RetentionDropsIff(s.box, now, cfg.limits, Written);
    hide Run, RunRetention, JournalRules.Expired;
  }
}
