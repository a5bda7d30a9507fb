/**
 * The outbox worker and the backend adapter in their own form. One undisturbed tick is shown
 * to be one run of the step system, so everything proved about runs holds of it.
 */
module Worker {
  import opened Common
  import opened Outbox
  import opened OutboxSystem

  /** One request on the wire: whether it took effect, and what the caller saw. */
  datatype Attempt = Attempt(applied: bool, reply: Outcome)

  /** What the world does around the delivery of one scope head. */
  datatype World = World(
    isPrivate: bool,
    allowed: bool,
    expected: Option<string>,
    seen: Readback,
    first: Attempt,
    second: Attempt,
    aborted: bool,
    privateAfter: bool,
    at: int,
    reason: string,
    persist: Persist)

  datatype Summary = Summary(
    sent: seq<string>,
    pendingAck: seq<string>,
    retried: seq<string>,
    quarantined: seq<string>,
    held: seq<string>)

  const NoNews := Summary([], [], [], [], [])

  function Join(a: Summary, b: Summary): Summary {
    Summary(a.sent + b.sent, a.pendingAck + b.pendingAck, a.retried + b.retried,
            a.quarantined + b.quarantined, a.held + b.held)
  }

  // ---- the shared call policy --------------------------------------------------

  /** A second attempt is made only for an idempotent tool after an availability fault. */
  predicate Retries(idempotent: bool, first: Attempt, aborted: bool) {
    first.reply == Failed(Availability) && idempotent && !aborted
  }

  function CallReply(idempotent: bool, first: Attempt, second: Attempt, aborted: bool): Outcome {
    if Retries(idempotent, first, aborted) then second.reply else first.reply
  }

  predicate TookEffect(a: Attempt) {
    a.applied || a.reply == Sent
  }

  predicate CallApplied(idempotent: bool, first: Attempt, second: Attempt, aborted: bool) {
    TookEffect(first) || (Retries(idempotent, first, aborted) && TookEffect(second))
  }

  class Backend {
    var docs: map<Path, string>
    /** How many times each path was changed by a request of ours. */
    var applications: map<Path, nat>

    constructor ()
      ensures docs == map[] && applications == map[]
    {
      docs, applications := map[], map[];
    }

    /** One request reaching the server, or not. */
    method Exchange(p: Path, content: string, a: Attempt) returns (reply: Outcome)
      modifies this
      ensures reply == a.reply
      ensures docs == if TookEffect(a) then old(docs)[p := content] else old(docs)
      ensures applications == if TookEffect(a) then old(applications)[p := old(Count(p)) + 1] else old(applications)
    {
      if a.applied || a.reply == Sent {
        applications := applications[p := Count(p) + 1];
        docs := docs[p := content];
      }
      reply := a.reply;
    }

    function Count(p: Path): nat
      reads this
    {
      if p in applications then applications[p] else 0
    }

    /**
     * The retry loop around every tool call. A reply `Sent` means the content is there; a tool
     * that is not idempotent takes effect at most once whatever the faults.
     */
    method Call(p: Path, content: string, idempotent: bool, first: Attempt, second: Attempt, aborted: bool)
      returns (reply: Outcome)
      modifies this
      ensures reply == CallReply(idempotent, first, second, aborted)
      ensures docs == if CallApplied(idempotent, first, second, aborted) then old(docs)[p := content] else old(docs)
      ensures Count(p) <= old(Count(p)) + (if idempotent then 2 else 1)
      ensures reply == Sent ==> p in docs && docs[p] == content && Count(p) > old(Count(p))
      ensures forall q :: q != p ==> Count(q) == old(Count(q))
    {
      var attempt := 0;
      reply := Failed(Permanent);
      while attempt < 2
        invariant 0 <= attempt <= 2
        invariant attempt == 0 ==> docs == old(docs) && applications == old(applications)
        invariant attempt == 1 ==> idempotent && !aborted && reply == first.reply == Failed(Availability)
        invariant attempt == 1 ==> docs == if TookEffect(first) then old(docs)[p := content] else old(docs)
        invariant attempt == 2 ==> reply == CallReply(idempotent, first, second, aborted) && reply != Sent
        invariant attempt == 2 ==>
                    docs == if CallApplied(idempotent, first, second, aborted) then old(docs)[p := content] else old(docs)
        invariant old(Count(p)) <= Count(p) <= old(Count(p)) + attempt
        invariant attempt == 2 ==> idempotent
        invariant forall q :: q != p ==> Count(q) == old(Count(q))
      {
        reply := Exchange(p, content, if attempt == 0 then first else second);
        if reply == Sent { return; }
        if reply != Failed(Availability) || !idempotent || aborted { return; }
        attempt := attempt + 1;
      }
    }

    /** Read before write: absent is written, identical is a replay, different fails closed. */
    method WriteImmutable(p: Path, content: string, w: World) returns (r: Outcome)
      modifies this
      ensures (r, docs) == ImmutableEffect(old(docs), p, content, w)
      ensures p in old(docs) ==> docs == old(docs)
      ensures r == Sent ==> p in docs && docs[p] == content
    {
      match w.seen {
        case ReadFault(e) => return Failed(e);
        case Unreadable => return Failed(Permanent);
        case Found =>
          if p in docs {
            if docs[p] == content { return Sent; }
            return Failed(Permanent);
          }
          r := Call(p, content, true, w.first, w.second, w.aborted);
      }
    }
  }

  function ImmutableEffect(docs: map<Path, string>, p: Path, content: string, w: World)
    : (Outcome, map<Path, string>)
  {
    match w.seen
    case ReadFault(e) => (Failed(e), docs)
    case Unreadable => (Failed(Permanent), docs)
    case Found =>
      if p in docs then (if docs[p] == content then Sent else Failed(Permanent), docs)
      else MutableEffect(docs, p, content, w)
  }

  function MutableEffect(docs: map<Path, string>, p: Path, content: string, w: World)
    : (Outcome, map<Path, string>)
  {
    (CallReply(true, w.first, w.second, w.aborted),
     if CallApplied(true, w.first, w.second, w.aborted) then docs[p := content] else docs)
  }

  // ---- the events of one tick --------------------------------------------------

  /** Everything that may happen to one head; what does not apply changes nothing. */
  function HeadEvents(w: World): seq<Event> {
    [HeadNext(w.isPrivate, w.allowed, w.expected),
     ReadBack(w.seen),
     WriteOut(CallApplied(true, w.first, w.second, w.aborted), CallReply(true, w.first, w.second, w.aborted)),
     Settle(w.privateAfter, w.at, w.reason, w.persist)]
  }

  function HeadsEvents(world: nat -> World, n: nat): seq<Event> {
    if n == 0 then [] else HeadsEvents(world, n - 1) + HeadEvents(world(n - 1))
  }

  function TickEvents(now: int, world: nat -> World, n: nat): seq<Event> {
    [TickBegin(now)] + HeadsEvents(world, n)
  }

  lemma RunFour(s: Sys, cfg: Config, a: Event, b: Event, c: Event, d: Event)
    ensures Run(s, cfg, [a, b, c, d]) == Apply(Apply(Apply(Apply(s, cfg, a), cfg, b), cfg, c), cfg, d)
  {
    hide Apply;
    var s1 := Apply(s, cfg, a);
    assert [a, b, c, d][1..] == [b, c, d];
    var s2 := Apply(s1, cfg, b);
    assert [b, c, d][1..] == [c, d];
    var s3 := Apply(s2, cfg, c);
    assert [c, d][1..] == [d];
    assert [d][1..] == [];
    assert Run(s3, cfg, [d]) == Run(Apply(s3, cfg, d), cfg, []);
    assert Run(s2, cfg, [c, d]) == Run(s3, cfg, [d]);
    assert Run(s1, cfg, [b, c, d]) == Run(s2, cfg, [c, d]);
  }

  // ---- scope heads -------------------------------------------------------------

  lemma {:induction false} PlaceAt(heads: seq<Job>, j: Job, k: nat)
    requires k <= |heads|
    requires forall i :: 0 <= i < k ==> heads[i].scope != j.scope
    requires k < |heads| ==> heads[k].scope == j.scope
    ensures Place(heads, j) ==
              if k == |heads| then heads + [j]
              else if j.seqNo < heads[k].seqNo then heads[k := j] else heads
  {
    if heads != [] && k > 0 {
      PlaceAt(heads[1..], j, k - 1);
      assert heads == [heads[0]] + heads[1..];
    }
  }

  class OutboxWorker {
    const store: DurableOutbox
    const backend: Backend
    const maxAttempts: nat

    constructor (store: DurableOutbox, backend: Backend, maxAttempts: nat)
      ensures this.store == store && this.backend == backend && this.maxAttempts == maxAttempts
    {
      this.store := store;
      this.backend := backend;
      this.maxAttempts := maxAttempts;
    }

    function Cfg(): Config {
      Config(store.limits, maxAttempts)
    }

    /** The value state of the system agrees with the two objects. */
    ghost predicate Mirrors(s: Sys)
      reads store, store.file, backend
    {
      s.box == store.Value() && s.docs == backend.docs
    }

    /** One turn of the head map's loop. */
    method Offer(heads: seq<Job>, job: Job) returns (after: seq<Job>)
      ensures after == Place(heads, job)
    {
      var k := 0;
      while k < |heads| && heads[k].scope != job.scope
        invariant 0 <= k <= |heads|
        invariant forall m :: 0 <= m < k ==> heads[m].scope != job.scope
      {
        k := k + 1;
      }
      PlaceAt(heads, job, k);
      if k == |heads| {
        after := heads + [job];
      } else if job.seqNo < heads[k].seqNo {
        after := heads[k := job];
      } else {
        after := heads;
      }
    }

    method ScopeHeads() returns (heads: seq<Job>)
      ensures heads == Heads(PendingJobs(store.jobs))
    {
      var pending := PendingJobs(store.jobs);
      heads := [];
      for i := 0 to |pending|
        invariant heads == Heads(pending[..i])
      {
        heads := Offer(heads, pending[i]);
        assert pending[..i + 1][..i] == pending[..i];
      }
      assert pending[..|pending|] == pending;
    }

    /** The sender: a malformed payload is refused before the network. */
    method Send(job: Job, w: World) returns (o: Outcome)
      modifies backend
      ensures (o, backend.docs) == SendEffect(old(backend.docs), job, w)
    {
      match job.payload {
        case Malformed => return Failed(Permanent);
        case RecordDoc(name, content) => o := backend.WriteImmutable(RecordPath(name), content, w);
        case ManifestDoc(session, content) =>
          o := backend.Call(ManifestPath(job.scope, session), content, true, w.first, w.second, w.aborted);
      }
    }

    method Deliver(job: Job, w: World) returns (news: Summary)
      modifies store, store.file, backend
      ensures var (o, docs) := Outgoing(old(store.jobs), old(backend.docs), job, w);
              && backend.docs == docs
              && store.Value() == Recorded(old(store.Value()), job, o, w, maxAttempts).0
              && news == Recorded(old(store.Value()), job, o, w, maxAttempts).1
    {
      var o := Failed(Permanent);
      if !w.allowed {
        o := Failed(PrivateModeActive);
      } else if HasOpId(store.jobs, job.opId) {
        o := Send(job, w);
      }
      news := Conclude(job, o, w);
    }

    /** What is recorded about a finished delivery. */
    method Conclude(job: Job, o: Outcome, w: World) returns (news: Summary)
      modifies store, store.file
      ensures store.Value() == Recorded(old(store.Value()), job, o, w, maxAttempts).0
      ensures news == Recorded(old(store.Value()), job, o, w, maxAttempts).1
    {
      match o {
        case Sent =>
          var e := store.Update(job.seqNo, Acknowledge(w.at), w.persist);
          news := NoNews.(sent := [job.opId], pendingAck := if e.Some? then [job.opId] else []);
        case Failed(error) =>
          if w.privateAfter || error == PrivateModeActive {
            return NoNews.(held := [job.opId]);
          }
          if error == Availability && job.attempts + 1 < maxAttempts {
            var e := store.Update(job.seqNo, Change.Retry(job.attempts + 1, w.at), w.persist);
            news := NoNews.(retried := if e.None? then [job.opId] else []);
          } else {
            var e := store.Update(job.seqNo, Change.Quarantine(w.reason), w.persist);
            news := NoNews.(quarantined := if e.None? then [job.opId] else []);
          }
      }
    }

    /** The body of the tick's loop: wait, hold, or deliver. */
    method Visit(job: Job, w: World, now: int, ghost s: Sys) returns (news: Summary)
      requires Mirrors(s) && s.flight.NoFlight? && s.queue != [] && s.queue[0] == job && s.tickNow == now
      modifies store, store.file, backend
      ensures news == HeadReport(s, Cfg(), w)
      ensures if Passes(s, w) then
                var (o, docs) := Outgoing(s.box.jobs, s.docs, job, w);
                backend.docs == docs && store.Value() == Recorded(s.box, job, o, w, maxAttempts).0
              else Mirrors(s)
    {
      if job.nextAttemptAt > now { return NoNews; }
      if w.isPrivate { return NoNews.(held := [job.opId]); }
      if job.target.Some? && w.expected.Some? && job.target != w.expected {
        return NoNews.(held := [job.opId]);
      }
      news := Deliver(job, w);
    }

    /**
     * One tick without interruption. The objects end where the step system ends after
     * `TickEvents`, and the summary reports every head the tick looked at.
     */
    method RunTick(now: int, world: nat -> World, ghost s: Sys) returns (summary: Summary, ghost s': Sys)
      requires Mirrors(s) && s.queue == [] && s.flight.NoFlight?
      modifies store, store.file, backend
      ensures var n := |Heads(PendingJobs(s.box.jobs))|;
              && s' == Run(s, Cfg(), TickEvents(now, world, n))
              && summary == TickReport(Run(s, Cfg(), [TickBegin(now)]), Cfg(), world, n)
      ensures Mirrors(s') && s'.queue == [] && s'.flight.NoFlight?
    {
      summary := NoNews;
      var heads := ScopeHeads();
      ghost var s0 := Apply(s, Cfg(), TickBegin(now));
      s' := s0;
      assert Run(s0, Cfg(), HeadsEvents(world, 0)) == s0 && TickReport(s0, Cfg(), world, 0) == NoNews;
      hide Run, Recorded, Outgoing, HeadEvents, HeadReport, Heads, HeadsEvents, TickReport, Join;
      for i := 0 to |heads|
        invariant Mirrors(s') && s'.flight.NoFlight? && s'.queue == heads[i..] && s'.tickNow == now
        invariant s' == Run(s0, Cfg(), HeadsEvents(world, i))
        invariant summary == TickReport(s0, Cfg(), world, i)
      {
        var job, w := heads[i], world(i);
        HeadRun(s', Cfg(), w);
        NextHead(s0, Cfg(), world, i);
        ghost var before := s';
        s' := Run(s', Cfg(), HeadEvents(w));
        var news := Visit(job, w, now, before);
        summary := Join(summary, news);
      }
      RunConcat(s, Cfg(), [TickBegin(now)], HeadsEvents(world, |heads|));
    }
  }

  function SendEffect(docs: map<Path, string>, job: Job, w: World): (Outcome, map<Path, string>) {
    match job.payload
    case Malformed => (Failed(Permanent), docs)
    case RecordDoc(name, content) => ImmutableEffect(docs, RecordPath(name), content, w)
    case ManifestDoc(session, content) => MutableEffect(docs, ManifestPath(job.scope, session), content, w)
  }

  // ---- one head, as a value ----------------------------------------------------

  /** What leaves for the network, after the gate and the op-id ledger were asked once more. */
  function Outgoing(jobs: seq<Job>, docs: map<Path, string>, job: Job, w: World): (Outcome, map<Path, string>) {
    if !w.allowed then (Failed(PrivateModeActive), docs)
    else if !HasOpId(jobs, job.opId) then (Failed(Permanent), docs)
    else SendEffect(docs, job, w)
  }

  function Recorded(b: Box, job: Job, o: Outcome, w: World, maxAttempts: nat): (Box, Summary) {
    match Verdict(job, o, w.privateAfter, w.at, w.reason, maxAttempts)
    case None => (b, NoNews.(held := [job.opId]))
    case Some(c) =>
      var (after, e) := Mutate(b, job.seqNo, c, w.persist);
      (after,
       match c
       case Acknowledge(_) => NoNews.(sent := [job.opId], pendingAck := if e.Some? then [job.opId] else [])
       case Retry(_, _) => NoNews.(retried := if e.None? then [job.opId] else [])
       case Quarantine(_) => NoNews.(quarantined := if e.None? then [job.opId] else []))
  }

  function HeadReport(s: Sys, cfg: Config, w: World): Summary {
    if s.queue == [] || !s.flight.NoFlight? || s.queue[0].nextAttemptAt > s.tickNow then NoNews
    else
      var job := s.queue[0];
      if w.isPrivate || (job.target.Some? && w.expected.Some? && job.target != w.expected) then
        NoNews.(held := [job.opId])
      else
        Recorded(s.box, job, Outgoing(s.box.jobs, s.docs, job, w).0, w, cfg.maxAttempts).1
  }

  function TickReport(s: Sys, cfg: Config, world: nat -> World, n: nat): Summary {
    if n == 0 then NoNews
    else
      Join(TickReport(s, cfg, world, n - 1),
           HeadReport(Run(s, cfg, HeadsEvents(world, n - 1)), cfg, world(n - 1)))
  }

  lemma NextHead(s0: Sys, cfg: Config, world: nat -> World, i: nat)
    ensures var s := Run(s0, cfg, HeadsEvents(world, i));
            && Run(s0, cfg, HeadsEvents(world, i + 1)) == Run(s, cfg, HeadEvents(world(i)))
            && TickReport(s0, cfg, world, i + 1) ==
                 Join(TickReport(s0, cfg, world, i), HeadReport(s, cfg, world(i)))
  {
    hide Run, HeadReport, HeadEvents;
    RunConcat(s0, cfg, HeadsEvents(world, i), HeadEvents(world(i)));
  }

  predicate Passes(s: Sys, w: World)
    requires s.queue != []
  {
    var job := s.queue[0];
    && job.nextAttemptAt <= s.tickNow && !w.isPrivate
    && !(job.target.Some? && w.expected.Some? && job.target != w.expected)
  }

  /** Taking a head that passes: the sender is reached, or the refusal is already decided. */
  lemma Taken(s: Sys, w: World) returns (s1: Sys)
    requires s.queue != [] && s.flight.NoFlight? && Passes(s, w)
    ensures s1 == TakeHead(s, w.isPrivate, w.allowed, w.expected)
    ensures s1.box == s.box && s1.docs == s.docs && s1.queue == s.queue[1..] && s1.tickNow == s.tickNow
    ensures var job := s.queue[0];
            s1.flight ==
              if !w.allowed then Settling(job, Failed(PrivateModeActive))
              else if !HasOpId(s.box.jobs, job.opId) then Settling(job, Failed(Permanent))
              else match job.payload
                   case Malformed => Settling(job, Failed(Permanent))
                   case RecordDoc(_, _) => Reading(job)
                   case ManifestDoc(_, _) => Writing(job)
  {
    hide HasOpId;
    s1 := TakeHead(s, w.isPrivate, w.allowed, w.expected);
  }

  function ReadStep(s: Sys, w: World): Sys {
    if s.flight.Reading? && Sendable(s.flight.job) then ReadBeforeWrite(s, w.seen) else s
  }

  function WriteStep(s: Sys, w: World): Sys {
    if s.flight.Writing? && Sendable(s.flight.job) then
      Write(s, CallApplied(true, w.first, w.second, w.aborted), CallReply(true, w.first, w.second, w.aborted))
    else s
  }

  function SettleStep(s: Sys, cfg: Config, w: World): Sys {
    if s.flight.Settling? then SettleJob(s, cfg, w.privateAfter, w.at, w.reason, w.persist) else s
  }

  lemma ReadThenWrite(s: Sys, w: World)
    requires s.flight.Reading? && s.flight.job.payload.RecordDoc?
    ensures var job := s.flight.job;
            var (o, docs) := ImmutableEffect(s.docs, PathOf(job), ContentOf(job), w);
            var s' := WriteStep(ReadStep(s, w), w);
            && s'.flight == Settling(job, o) && s'.docs == docs
            && s'.box == s.box && s'.queue == s.queue && s'.tickNow == s.tickNow
  {
    hide ReadStep, WriteStep, CallApplied, CallReply, PathOf, ContentOf;
    ReadDecides(s, w);
    var r := ReadStep(s, w);
    if r.flight.Writing? { WriteDecides(r, w); } else { NoWrite(r, w); }
  }

  lemma ReadDecides(s: Sys, w: World)
    requires s.flight.Reading? && s.flight.job.payload.RecordDoc?
    ensures var job, r := s.flight.job, ReadStep(s, w);
            && r.docs == s.docs && r.box == s.box && r.queue == s.queue && r.tickNow == s.tickNow
            && if w.seen.Found? && PathOf(job) !in s.docs then r.flight == Writing(job)
               else r.flight == Settling(job, ImmutableEffect(s.docs, PathOf(job), ContentOf(job), w).0)
  {
    hide MutableEffect;
  }

  lemma WriteDecides(s: Sys, w: World)
    requires s.flight.Writing? && Sendable(s.flight.job)
    ensures var job, r := s.flight.job, WriteStep(s, w);
            var (o, docs) := MutableEffect(s.docs, PathOf(job), ContentOf(job), w);
            r.flight == Settling(job, o) && r.docs == docs && r.box == s.box && r.queue == s.queue && r.tickNow == s.tickNow
  {
  }

  lemma NoWrite(s: Sys, w: World)
    requires !s.flight.Writing?
    ensures WriteStep(s, w) == s
  {
  }

  /** From the sender to a decided outcome, exactly what `Outgoing` says. */
  lemma SendSteps(s: Sys, w: World)
    requires s.queue != [] && s.flight.NoFlight? && Passes(s, w)
    ensures var job := s.queue[0];
            var (o, docs) := Outgoing(s.box.jobs, s.docs, job, w);
            var s3 := WriteStep(ReadStep(TakeHead(s, w.isPrivate, w.allowed, w.expected), w), w);
            && s3.flight == Settling(job, o) && s3.docs == docs
            && s3.box == s.box && s3.queue == s.queue[1..] && s3.tickNow == s.tickNow
  {
    var s1 := Taken(s, w);
    hide HasOpId, TakeHead, ImmutableEffect, MutableEffect, Write, ReadBeforeWrite;
    if s1.flight.Reading? {
      ReadThenWrite(s1, w);
    } else if s1.flight.Writing? {
    }
  }

  lemma HeadSteps(s: Sys, cfg: Config, w: World)
    requires s.queue != [] && s.flight.NoFlight?
    ensures Run(s, cfg, HeadEvents(w)) ==
              SettleStep(WriteStep(ReadStep(TakeHead(s, w.isPrivate, w.allowed, w.expected), w), w), cfg, w)
  {
    hide Run, Apply, TakeHead, ReadStep, WriteStep, SettleStep, CallApplied, CallReply;
    var es := HeadEvents(w);
    assert es == [es[0], es[1], es[2], es[3]];
    RunFour(s, cfg, es[0], es[1], es[2], es[3]);
    ApplyHeadEvents(s, cfg, w);
    ApplyLaterEvents(TakeHead(s, w.isPrivate, w.allowed, w.expected), cfg, w);
  }

  lemma ApplyHeadEvents(s: Sys, cfg: Config, w: World)
    requires s.queue != [] && s.flight.NoFlight?
    ensures Apply(s, cfg, HeadEvents(w)[0]) == TakeHead(s, w.isPrivate, w.allowed, w.expected)
  {
    hide TakeHead, CallApplied, CallReply;
  }

  lemma ApplyLaterEvents(s: Sys, cfg: Config, w: World)
    ensures var es := HeadEvents(w);
            && Apply(s, cfg, es[1]) == ReadStep(s, w)
            && Apply(ReadStep(s, w), cfg, es[2]) == WriteStep(ReadStep(s, w), w)
            && Apply(WriteStep(ReadStep(s, w), w), cfg, es[3]) == SettleStep(WriteStep(ReadStep(s, w), w), cfg, w)
  {
    hide ReadBeforeWrite, Write, SettleJob, CallApplied, CallReply;
  }

  /** The four events of one head, seen from outside. */
  lemma HeadRun(s: Sys, cfg: Config, w: World)
    requires s.queue != [] && s.flight.NoFlight?
    ensures var job, s' := s.queue[0], Run(s, cfg, HeadEvents(w));
            && s'.queue == s.queue[1..] && s'.flight.NoFlight? && s'.tickNow == s.tickNow
            && if Passes(s, w) then
                 var (o, docs) := Outgoing(s.box.jobs, s.docs, job, w);
                 s'.docs == docs && s'.box == Recorded(s.box, job, o, w, cfg.maxAttempts).0
               else s'.docs == s.docs && s'.box == s.box
  {
    hide Run, Recorded, Outgoing, TakeHead, SettleStep, WriteStep, ReadStep, Passes;
    HeadSteps(s, cfg, w);
    if Passes(s, w) {
      SendSteps(s, w);
      SettleSettles(WriteStep(ReadStep(TakeHead(s, w.isPrivate, w.allowed, w.expected), w), w), cfg, w);
    } else {
      PassedBy(s, cfg, w);
    }
  }

  lemma SettleSettles(s: Sys, cfg: Config, w: World)
    requires s.flight.Settling?
    ensures var s' := SettleStep(s, cfg, w);
            && s'.queue == s.queue && s'.flight.NoFlight? && s'.tickNow == s.tickNow && s'.docs == s.docs
            && s'.box == Recorded(s.box, s.flight.job, s.flight.outcome, w, cfg.maxAttempts).0
  {
  }

  lemma PassedBy(s: Sys, cfg: Config, w: World)
    requires s.queue != [] && s.flight.NoFlight? && !Passes(s, w)
    ensures var s' := SettleStep(WriteStep(ReadStep(TakeHead(s, w.isPrivate, w.allowed, w.expected), w), w), cfg, w);
            s' == s.(queue := s.queue[1..])
  {
    hide SettleJob, Write, ReadBeforeWrite;
  }
}
