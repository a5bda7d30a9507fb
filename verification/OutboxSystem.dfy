/**
 * Outbox, worker and backend as one step system: every event a process can see between two
 * awaits, with crashes, lost replies, failed journal writes and foreign writers in between.
 * A run is any sequence of events; an event that does not apply in a state changes nothing.
 */
module OutboxSystem {
  import opened Common
  import opened Outbox

  datatype Path = RecordPath(name: string) | ManifestPath(scope: string, session: string)

  predicate Sendable(j: Job) {
    !j.payload.Malformed?
  }

  function PathOf(j: Job): Path
    requires Sendable(j)
  {
    match j.payload
    case RecordDoc(name, _) => RecordPath(name)
    case ManifestDoc(session, _) => ManifestPath(j.scope, session)
  }

  function ContentOf(j: Job): string
    requires Sendable(j)
  {
    j.payload.content
  }

  /** Only `Availability` may be retried. */
  datatype SendError = Availability | Permanent | PrivateModeActive

  datatype Outcome = Sent | Failed(error: SendError)

  datatype Flight =
    | NoFlight
    | Reading(job: Job)
    | Writing(job: Job)
    | Settling(job: Job, outcome: Outcome)

  datatype Readback = Found | Unreadable | ReadFault(error: SendError)

  datatype Config = Config(limits: Limits, maxAttempts: nat)

  /**
   * `queue` holds the scope heads the running tick has not reached. The last six fields are
   * history: what was minted and accepted, what the user discarded, what was handed to the
   * sender, and which ticket a path was last written for.
   */
  datatype Sys = Sys(
    box: Box,
    queue: seq<Job>,
    tickNow: int,
    flight: Flight,
    docs: map<Path, string>,
    claimed: set<Path>,
    newest: map<Path, nat>,
    minted: map<nat, Job>,
    accepted: set<nat>,
    discarded: set<nat>,
    sends: seq<Job>)

  datatype Event =
    | EnqueueJob(input: EnqueueInput, ctx: EnqueueContext, persist: Persist)
    | DiscardJob(n: nat, persist: Persist)
    | Retain(now: int, persist: Persist)
    | TickBegin(now: int)
    | HeadNext(isPrivate: bool, allowed: bool, expected: Option<string>)
    | ReadBack(seen: Readback)
    | WriteOut(applied: bool, reply: Outcome)
    | Settle(isPrivate: bool, at: int, reason: string, persist: Persist)
    | Crash
    | Foreign(path: Path, content: Option<string>)

  const Init: Sys :=
    Sys(Load([], 0), [], 0, NoFlight, map[], {}, map[], map[], {}, {}, [])

  // ---- scope heads -------------------------------------------------------------

  /** The head map of one tick: first pending job of a scope, or a later one with a lower seq. */
  function Place(heads: seq<Job>, j: Job): seq<Job> {
    if heads == [] then [j]
    else if heads[0].scope == j.scope then
      (if j.seqNo < heads[0].seqNo then [j] + heads[1..] else heads)
    else [heads[0]] + Place(heads[1..], j)
  }

  function Heads(pending: seq<Job>): seq<Job> {
    if pending == [] then [] else Place(Heads(pending[..|pending| - 1]), pending[|pending| - 1])
  }

  // ---- steps -------------------------------------------------------------------

  function TakeHead(s: Sys, isPrivate: bool, allowed: bool, expected: Option<string>): Sys
    requires s.queue != []
  {
    var j, rest := s.queue[0], s.(queue := s.queue[1..]);
    if j.nextAttemptAt > s.tickNow then rest
    else if isPrivate then rest
    else if j.target.Some? && expected.Some? && j.target != expected then rest
    else if !allowed then rest.(flight := Settling(j, Failed(PrivateModeActive)))
    else if !HasOpId(s.box.jobs, j.opId) then rest.(flight := Settling(j, Failed(Permanent)))
    else
      var sent := rest.(sends := s.sends + [j]);
      match j.payload
      case Malformed => sent.(flight := Settling(j, Failed(Permanent)))
      case RecordDoc(_, _) => sent.(flight := Reading(j))
      case ManifestDoc(_, _) => sent.(flight := Writing(j))
  }

  function ReadBeforeWrite(s: Sys, seen: Readback): Sys
    requires s.flight.Reading? && Sendable(s.flight.job)
  {
    var j := s.flight.job;
    match seen
    case ReadFault(e) => s.(flight := Settling(j, Failed(e)))
    case Unreadable => s.(flight := Settling(j, Failed(Permanent)))
    case Found =>
      if PathOf(j) !in s.docs then s.(flight := Writing(j))
      else if s.docs[PathOf(j)] == ContentOf(j) then
        s.(flight := Settling(j, Sent), claimed := s.claimed + {PathOf(j)})
      else s.(flight := Settling(j, Failed(Permanent)))
  }

  function Write(s: Sys, applied: bool, reply: Outcome): Sys
    requires s.flight.Writing? && Sendable(s.flight.job)
  {
    var j := s.flight.job;
    var replied := s.(flight := Settling(j, reply));
    if applied || reply == Sent then
      replied.(docs := s.docs[PathOf(j) := ContentOf(j)],
               claimed := s.claimed + {PathOf(j)},
               newest := s.newest[PathOf(j) := j.ticket])
    else replied
  }

  /** What the worker records about a finished delivery; `None` when the job is held. */
  function Verdict(j: Job, o: Outcome, isPrivate: bool, at: int, reason: string, maxAttempts: nat): Option<Change> {
    match o
    case Sent => Some(Acknowledge(at))
    case Failed(e) =>
      if isPrivate || e == PrivateModeActive then None
      else if e == Availability && j.attempts + 1 < maxAttempts then Some(Change.Retry(j.attempts + 1, at))
      else Some(Change.Quarantine(reason))
  }

  function SettleJob(s: Sys, cfg: Config, isPrivate: bool, at: int, reason: string, p: Persist): Sys
    requires s.flight.Settling?
  {
    var j := s.flight.job;
    match Verdict(j, s.flight.outcome, isPrivate, at, reason, cfg.maxAttempts)
    case None => s.(flight := NoFlight)
    case Some(c) => s.(flight := NoFlight, box := Mutate(s.box, j.seqNo, c, p).0)
  }

  function Accept(s: Sys, cfg: Config, input: EnqueueInput, ctx: EnqueueContext, p: Persist): Sys {
    var (b, r) := Enqueue(s.box, input, ctx, cfg.limits, p);
    if b.tickets == s.box.tickets then s.(box := b)
    else s.(box := b,
            minted := s.minted[s.box.tickets := NewJob(s.box, input, ctx)],
            accepted := if r.Ok? then s.accepted + {s.box.tickets} else s.accepted)
  }

  function TicketsAt(jobs: seq<Job>, n: nat): set<nat> {
    set j | j in jobs && j.seqNo == n :: j.ticket
  }

  function Apply(s: Sys, cfg: Config, e: Event): Sys {
    match e
    case EnqueueJob(input, ctx, p) => Accept(s, cfg, input, ctx, p)
    case DiscardJob(n, p) =>
      var (b, err) := Discard(s.box, n, p);
      if err == Some(NotFound) then s
      else s.(box := b, discarded := s.discarded + TicketsAt(s.box.jobs, n))
    case Retain(now, p) => s.(box := RunRetention(s.box, now, cfg.limits, p).0)
    case TickBegin(now) =>
      if s.queue == [] && s.flight.NoFlight? then
        s.(queue := Heads(PendingJobs(s.box.jobs)), tickNow := now)
      else s
    case HeadNext(isPrivate, allowed, expected) =>
      if s.queue != [] && s.flight.NoFlight? then TakeHead(s, isPrivate, allowed, expected) else s
    case ReadBack(seen) =>
      if s.flight.Reading? && Sendable(s.flight.job) then ReadBeforeWrite(s, seen) else s
    case WriteOut(applied, reply) =>
      if s.flight.Writing? && Sendable(s.flight.job) then Write(s, applied, reply) else s
    case Settle(isPrivate, at, reason, p) =>
      if s.flight.Settling? then SettleJob(s, cfg, isPrivate, at, reason, p) else s
    case Crash =>
      s.(box := Load(s.box.journal, s.box.tickets), queue := [], flight := NoFlight)
    case Foreign(path, content) =>
      if path in s.claimed then s
      else if content.Some? then s.(docs := s.docs[path := content.value])
      else s.(docs := s.docs - {path})
  }

  function Run(s: Sys, cfg: Config, events: seq<Event>): Sys
    decreases |events|
  {
    if events == [] then s else Run(Apply(s, cfg, events[0]), cfg, events[1..])
  }

  lemma {:induction false} RunConcat(s: Sys, cfg: Config, first: seq<Event>, rest: seq<Event>)
    ensures Run(s, cfg, first + rest) == Run(Run(s, cfg, first), cfg, rest)
    decreases |first|
  {
    if first == [] {
      assert first + rest == rest;
    } else {
      assert (first + rest)[1..] == first[1..] + rest;
      RunConcat(Apply(s, cfg, first[0]), cfg, first[1..], rest);
    }
  }
}
