/**
 * Guarded remote cleanup: the eligibility rules, and the executor that rechecks every candidate of
 * a confirmed preview before it deletes, while the backend, the acknowledgments and the private
 * gate change freely under it.
 */
module BoardCleanup {
  import opened Common
  import opened BoardState

  const GC_GRACE_MS: int := 30 * 24 * 60 * 60 * 1000
  const DAY_MS: int := 24 * 60 * 60 * 1000

  // ---- the rules -------------------------------------------------------------------

  /** A ttl may have a fraction. */
  datatype Ttl = NoTtl | Seconds(n: real) | NotFinite

  datatype ReadView = ReadView(msgId: string, from: string, created: string, ttl: Ttl)

  datatype Held = NotOwner | MissingBasis | WithinGrace | MalformedTime

  datatype Eligibility = Eligible | Ineligible(reason: Held)

  /** `instant` parses a created stamp. */
  function Evaluate(read: ReadView, ackedAt: Option<int>, own: string, now: int, instant: string -> Option<int>): Eligibility {
    if read.from != own then Ineligible(NotOwner)
    else if instant(read.created).None? then Ineligible(MalformedTime)
    else if read.ttl.NotFinite? || (read.ttl.Seconds? && read.ttl.n < 0.0) then Ineligible(MalformedTime)
    else if read.ttl.NoTtl? then Ineligible(MissingBasis)
    else
      var expiry := instant(read.created).value as real + read.ttl.n * 1000.0;
      if !(expiry < now as real) || ackedAt.None? then Ineligible(MissingBasis)
      else if now as real - Later(expiry, ackedAt.value as real) <= GC_GRACE_MS as real then Ineligible(WithinGrace)
      else Eligible
  }

  function Later(a: real, b: real): real {
    if a < b then b else a
  }

  /** Acknowledged and expired, both more than the grace window ago. */
  ghost predicate Settled(view: ReadView, ackedAt: Option<int>, now: int, instant: string -> Option<int>) {
    && instant(view.created).Some? && view.ttl.Seconds? && view.ttl.n >= 0.0 && ackedAt.Some?
    && now - ackedAt.value > GC_GRACE_MS
    && now as real - (instant(view.created).value as real + view.ttl.n * 1000.0) > GC_GRACE_MS as real
  }

  /** Our own message is eligible exactly when it is settled. */
  lemma EligibleIff(read: ReadView, ackedAt: Option<int>, own: string, now: int, instant: string -> Option<int>)
    ensures Evaluate(read, ackedAt, own, now, instant).Eligible? <==>
            read.from == own && Settled(read, ackedAt, now, instant)
  {
  }

  /**
   * What a message may be deleted on is old news: if its acknowledgment is retained by a delivery
   * state that was saved, that consumer recorded nothing in the last sixteen days.
   */
  lemma EligibleMeansQuiet(s: State, e: DeliveryEntry, read: ReadView, own: string, now: int,
                           instant: string -> Option<int>)
    requires StateOk(s) && e in s.entries
    requires Evaluate(read, e.ackedAt, own, now, instant).Eligible?
    ensures now - Newest(s.entries) > 16 * DAY_MS
    ensures forall x :: x in s.entries ==> now - Latest(x) > 16 * DAY_MS
  {
    NewestIsMaximum(s.entries);
  }

  // ---- the executor ------------------------------------------------------------------

  datatype Candidate = Candidate(msgId: string, path: string, created: string, etag: Option<string>)

  datatype Recheck =
    | Fresh(view: ReadView, etag: Option<string>)
    | Refused(reason: string)
    | ReadPrivate
    | ReadCancelled
    | ReadFailed

  datatype DeleteReply = Deletion | DeleteCancelled | DeletePrivate | DeleteFailed

  /** The world as each candidate finds it: index `i` is the i-th candidate of the preview. */
  datatype World = World(
    aborted: nat -> bool,
    isPrivate: nat -> bool,
    recheck: nat -> Recheck,
    ackedAt: nat -> Option<int>,
    ledgerFails: nat -> bool,
    reply: nat -> DeleteReply,
    opId: nat -> string,
    idOf: string -> Option<string>,
    instant: string -> Option<int>,
    now: int)

  datatype SkipWhy = IdMismatch | Unreadable | RefusedRead(reason: string) | Changed | Ruled(held: Held) | DeleteDidFail

  /** `index` is history: the candidate the item comes from. */
  datatype Deleted = Deleted(index: nat, msgId: string, path: string, opId: string)

  datatype Skipped = Skipped(index: nat, why: SkipWhy)

  datatype Ending = Examined | WasAborted | WentPrivate | BoundHit | LedgerThrew

  datatype Act = ReadAct(index: nat, path: string) | Recorded(opId: string) | Issued(index: nat, path: string, opId: string)

  /** `trace` is history: reads, ledger writes and deletes in the order they happened. */
  datatype Progress = Progress(
    deleted: seq<Deleted>,
    skipped: seq<Skipped>,
    unknown: seq<string>,
    ledger: seq<string>,
    trace: seq<Act>,
    ending: Ending)

  const Started: Progress := Progress([], [], [], [], [], Examined)

  predicate Matches(item: Candidate, read: ReadView, etag: Option<string>, own: string) {
    && read.msgId == item.msgId && read.created == item.created && read.from == own
    && (item.etag.Some? ==> etag == item.etag)
  }

  /** What the recheck says about a candidate: a reason to skip it, or none. */
  function Objection(w: World, own: string, item: Candidate, i: nat): Option<SkipWhy> {
    match w.recheck(i)
    case Refused(reason) => Some(RefusedRead(reason))
    case Fresh(view, etag) =>
      if !Matches(item, view, etag, own) then Some(Changed)
      else (match Evaluate(view, w.ackedAt(i), own, w.now, w.instant)
            case Eligible => None
            case Ineligible(reason) => Some(Ruled(reason)))
    case _ => Some(Unreadable)
  }

  function Skip(g: Progress, i: nat, why: SkipWhy): Progress {
    g.(skipped := g.skipped + [Skipped(i, why)])
  }

  /** Ledger first, then the delete; a cancelled delete has an unknown outcome. */
  function IssueDelete(g: Progress, w: World, item: Candidate, i: nat): Progress {
    if w.ledgerFails(i) then g.(ending := LedgerThrew)
    else
      var op := w.opId(i);
      var issued := g.(ledger := g.ledger + [op], trace := g.trace + [Recorded(op), Issued(i, item.path, op)]);
      match w.reply(i)
      case Deletion => issued.(deleted := g.deleted + [Deleted(i, item.msgId, item.path, op)])
      case DeleteCancelled => issued.(unknown := g.unknown + [op], ending := WasAborted)
      case DeletePrivate => issued.(unknown := g.unknown + [op], ending := WentPrivate)
      case DeleteFailed => Skip(issued, i, DeleteDidFail)
  }

  function Examine(g: Progress, w: World, own: string, item: Candidate, i: nat): Progress {
    var g := g.(trace := g.trace + [ReadAct(i, item.path)]);
    match w.recheck(i)
    case ReadPrivate => g.(ending := WentPrivate)
    case ReadCancelled => g.(ending := WasAborted)
    case _ =>
      match Objection(w, own, item, i)
      case Some(why) => Skip(g, i, why)
      case None => IssueDelete(g, w, item, i)
  }

  function Step(g: Progress, w: World, own: string, maxDeletes: nat, item: Candidate, i: nat): Progress {
    if w.aborted(i) then g.(ending := WasAborted)
    else if w.isPrivate(i) then g.(ending := WentPrivate)
    else if |g.deleted| >= maxDeletes then g.(ending := BoundHit)
    else if w.idOf(item.path) != Some(item.msgId) then Skip(g, i, IdMismatch)
    else Examine(g, w, own, item, i)
  }

  function ExecuteFrom(g: Progress, w: World, own: string, maxDeletes: nat, items: seq<Candidate>, i: nat): Progress
    requires i <= |items|
    decreases |items| - i
  {
    if i == |items| || g.ending != Examined then g
    else ExecuteFrom(Step(g, w, own, maxDeletes, items[i], i), w, own, maxDeletes, items, i + 1)
  }

  function DeleteBound(maxDeletes: Option<int>): nat {
    Max(1, if maxDeletes.Some? then maxDeletes.value else 100)
  }

  datatype Preview = PlanFailed | Plan(ownFrom: string, candidates: seq<Candidate>)

  datatype Refusal = NoPreview | NoIdentity | IdentityChanged | PrivateMode

  function Upfront(preview: Preview, own: string, isPrivate: bool): Option<Refusal> {
    if preview.PlanFailed? then Some(NoPreview)
    else if own == "" then Some(NoIdentity)
    else if own != preview.ownFrom then Some(IdentityChanged)
    else if isPrivate then Some(PrivateMode)
    else None
  }

  /** What the caller gets. A run cut short by private mode reports no skips, and a throw nothing. */
  datatype Outcome =
    | Execution(deleted: seq<Deleted>, skipped: seq<Skipped>, aborted: bool, boundHit: bool, unknown: seq<string>, ownFrom: string)
    | RunRefused(reason: Refusal, deleted: seq<Deleted>, unknown: seq<string>)
    | Threw

  function OutcomeOf(g: Progress, own: string): Outcome {
    match g.ending
    case WentPrivate => RunRefused(PrivateMode, g.deleted, g.unknown)
    case LedgerThrew => Threw
    case ending => Execution(g.deleted, g.skipped, ending == WasAborted, ending == BoundHit, g.unknown, own)
  }

  function Executed(preview: Preview, own: string, maxDeletes: Option<int>, w: World): Progress
    requires preview.Plan?
  {
    ExecuteFrom(Started, w, own, DeleteBound(maxDeletes), preview.candidates, 0)
  }

  class Executor {
    var deleted: seq<Deleted>
    var skipped: seq<Skipped>
    var unknown: seq<string>
    var ledger: seq<string>
    var ending: Ending
    ghost var trace: seq<Act>

    ghost function Value(): Progress
      reads this
    {
      Progress(deleted, skipped, unknown, ledger, trace, ending)
    }

    constructor ()
      ensures Value() == Started
    {
      deleted, skipped, unknown, ledger, trace, ending := [], [], [], [], [], Examined;
    }

    method TryDelete(w: World, item: Candidate, i: nat)
      modifies this
      ensures Value() == IssueDelete(old(Value()), w, item, i)
    {
      if w.ledgerFails(i) {
        ending := LedgerThrew;
        return;
      }
      var opId := w.opId(i);
      ledger := ledger + [opId];
      trace := trace + [Recorded(opId), Issued(i, item.path, opId)];
      match w.reply(i) {
        case DeleteCancelled =>
          ending := WasAborted;
          unknown := unknown + [opId];
        case DeletePrivate =>
          ending := WentPrivate;
          unknown := unknown + [opId];
        case DeleteFailed => skipped := skipped + [Skipped(i, DeleteDidFail)];
        case Deletion => deleted := deleted + [Deleted(i, item.msgId, item.path, opId)];
      }
    }

    method Candidate(w: World, own: string, item: Candidate, i: nat)
      modifies this
      ensures Value() == Examine(old(Value()), w, own, item, i)
    {
      trace := trace + [ReadAct(i, item.path)];
      match w.recheck(i) {
        case ReadPrivate => ending := WentPrivate;
        case ReadCancelled => ending := WasAborted;
        case ReadFailed => skipped := skipped + [Skipped(i, Unreadable)];
        case Refused(reason) => skipped := skipped + [Skipped(i, RefusedRead(reason))];
        case Fresh(view, etag) =>
          if view.msgId != item.msgId || view.created != item.created || view.from != own {
            skipped := skipped + [Skipped(i, Changed)];
          } else if item.etag.Some? && etag != item.etag {
            skipped := skipped + [Skipped(i, Changed)];
          } else {
            var ruling := Evaluate(view, w.ackedAt(i), own, w.now, w.instant);
            if ruling.Ineligible? {
              skipped := skipped + [Skipped(i, Ruled(ruling.reason))];
            } else {
              TryDelete(w, item, i);
            }
          }
      }
    }

    method Run(preview: Preview, own: string, maxDeletes: Option<int>, privateNow: bool, w: World) returns (r: Outcome)
      requires Value() == Started
      modifies this
      ensures match Upfront(preview, own, privateNow)
              case Some(reason) => Value() == Started && r == RunRefused(reason, [], [])
              case None =>
                && Value() == Executed(preview, own, maxDeletes, w)
                && r == OutcomeOf(Executed(preview, own, maxDeletes, w), own)
    {
      var refused := Upfront(preview, own, privateNow);
      if refused.Some? {
        return RunRefused(refused.value, deleted, unknown);
      }
      hide Examine;
      var bound, items := DeleteBound(maxDeletes), preview.candidates;
      var i := 0;
      while i < |items| && ending == Examined
        invariant 0 <= i <= |items|
        invariant ExecuteFrom(Value(), w, own, bound, items, i) == ExecuteFrom(Started, w, own, bound, items, 0)
      {
        if w.aborted(i) {
          ending := WasAborted;
        } else if w.isPrivate(i) {
          ending := WentPrivate;
        } else if |deleted| >= bound {
          ending := BoundHit;
        } else if w.idOf(items[i].path) != Some(items[i].msgId) {
          skipped := skipped + [Skipped(i, IdMismatch)];
        } else {
          Candidate(w, own, items[i], i);
        }
        i := i + 1;
      }
      match ending {
        case WentPrivate => r := RunRefused(PrivateMode, deleted, unknown);
        case LedgerThrew => r := Threw;
        case _ => r := Execution(deleted, skipped, ending == WasAborted, ending == BoundHit, unknown, own);
      }
    }
  }

  // ---- what a run promises ---------------------------------------------------------------

  /** Deleted items are candidates, in preview order, echoed exactly. */
  ghost predicate DeletedInOrder(g: Progress, items: seq<Candidate>, upTo: nat) {
    && (forall k :: 0 <= k < |g.deleted| ==>
          var d := g.deleted[k];
          d.index < upTo && d.index < |items| && d.msgId == items[d.index].msgId && d.path == items[d.index].path)
    && (forall j, k :: 0 <= j < k < |g.deleted| ==> g.deleted[j].index < g.deleted[k].index)
  }

  /** The grounds every issued delete had: our own message, read again unchanged under its path, and settled. */
  ghost predicate Grounds(w: World, own: string, items: seq<Candidate>, i: nat)
    requires i < |items|
  {
    && w.idOf(items[i].path) == Some(items[i].msgId)
    && w.recheck(i).Fresh?
    && var view := w.recheck(i).view;
       && view.msgId == items[i].msgId && view.created == items[i].created && view.from == own
       && (items[i].etag == None || w.recheck(i).etag == items[i].etag)
       && Settled(view, w.ackedAt(i), w.now, w.instant)
  }

  ghost predicate GroundedAt(g: Progress, w: World, own: string, items: seq<Candidate>, k: nat)
    requires k < |g.trace| && g.trace[k].Issued?
  {
    var d := g.trace[k];
    && k >= 2 && g.trace[k - 1] == Recorded(d.opId) && g.trace[k - 2] == ReadAct(d.index, d.path)
    && d.opId in g.ledger
    && d.index < |items| && Grounds(w, own, items, d.index) && d.path == items[d.index].path
  }

  ghost predicate DeletesGrounded(g: Progress, w: World, own: string, items: seq<Candidate>) {
    && (forall k: nat :: k < |g.trace| && g.trace[k].Issued? ==> GroundedAt(g, w, own, items, k))
    && (forall d :: d in g.deleted ==> Issued(d.index, d.path, d.opId) in g.trace)
  }

  function Indices(g: Progress): seq<nat> {
    seq(|g.deleted|, k requires 0 <= k < |g.deleted| => g.deleted[k].index)
    + seq(|g.skipped|, k requires 0 <= k < |g.skipped| => g.skipped[k].index)
  }

  function FirstN(n: nat): seq<nat> {
    seq(n, k => k)
  }

  /** Each candidate examined so far is in exactly one of the two lists, exactly once. */
  ghost predicate Accounted(g: Progress, i: nat) {
    g.ending == Examined ==> multiset(Indices(g)) == multiset(FirstN(i))
  }

  ghost predicate RunInv(g: Progress, w: World, own: string, maxDeletes: nat, items: seq<Candidate>, i: nat) {
    DeletedInOrder(g, items, i) && DeletesGrounded(g, w, own, items) && Accounted(g, i) && |g.deleted| <= maxDeletes
  }

  lemma IndicesSkip(g: Progress, i: nat, why: SkipWhy)
    ensures multiset(Indices(Skip(g, i, why))) == multiset(Indices(g)) + multiset{i}
  {
    assert Indices(Skip(g, i, why)) == Indices(g) + [i];
  }

  lemma IndicesDelete(g: Progress, d: Deleted)
    ensures multiset(Indices(g.(deleted := g.deleted + [d]))) == multiset(Indices(g)) + multiset{d.index}
  {
    var a := seq(|g.deleted|, k requires 0 <= k < |g.deleted| => g.deleted[k].index);
    var b := seq(|g.skipped|, k requires 0 <= k < |g.skipped| => g.skipped[k].index);
    assert Indices(g.(deleted := g.deleted + [d])) == a + [d.index] + b;
  }

  lemma FirstNPush(n: nat)
    ensures multiset(FirstN(n + 1)) == multiset(FirstN(n)) + multiset{n}
  {
    assert FirstN(n + 1) == FirstN(n) + [n];
  }

  lemma StepAccounts(g: Progress, w: World, own: string, maxDeletes: nat, items: seq<Candidate>, i: nat)
    requires i < |items| && g.ending == Examined && Accounted(g, i)
    ensures Accounted(Step(g, w, own, maxDeletes, items[i], i), i + 1)
  {
    hide Indices, FirstN;
    FirstNPush(i);
    var g1 := g.(trace := g.trace + [ReadAct(i, items[i].path)]);
    SameIndices(g, g1);
    IndicesSkip(g, i, IdMismatch);
    if Objection(w, own, items[i], i).Some? {
      IndicesSkip(g1, i, Objection(w, own, items[i], i).value);
    }
    var op := w.opId(i);
    var g2 := g1.(ledger := g1.ledger + [op], trace := g1.trace + [Recorded(op), Issued(i, items[i].path, op)]);
    SameIndices(g1, g2);
    IndicesSkip(g2, i, DeleteDidFail);
    IndicesDelete(g2, Deleted(i, items[i].msgId, items[i].path, op));
    hide Objection, Skip;
  }

  lemma SameIndices(g: Progress, h: Progress)
    requires g.deleted == h.deleted && g.skipped == h.skipped
    ensures Indices(g) == Indices(h)
  {
  }

  lemma TraceGrows(g: Progress, h: Progress, w: World, own: string, items: seq<Candidate>)
    requires DeletesGrounded(g, w, own, items)
    requires g.trace <= h.trace && g.ledger <= h.ledger && g.deleted == h.deleted
    requires forall k :: |g.trace| <= k < |h.trace| ==> !h.trace[k].Issued?
    ensures DeletesGrounded(h, w, own, items)
  {
    hide Grounds;
    assert forall op :: op in g.ledger ==> op in h.ledger;
    assert forall a :: a in g.trace ==> a in h.trace;
    forall k: nat | k < |h.trace| && h.trace[k].Issued?
      ensures GroundedAt(h, w, own, items, k)
    {
      assert g.trace[k] == h.trace[k] && GroundedAt(g, w, own, items, k);
    }
  }

  lemma DeleteIsGrounded(g: Progress, w: World, own: string, items: seq<Candidate>, i: nat)
    requires i < |items| && DeletesGrounded(g, w, own, items) && Grounds(w, own, items, i)
    requires g.trace != [] && g.trace[|g.trace| - 1] == ReadAct(i, items[i].path)
    ensures DeletesGrounded(IssueDelete(g, w, items[i], i), w, own, items)
  {
    hide Grounds, GroundedAt, IssueDelete;
    var h := IssueDelete(g, w, items[i], i);
    var n := |g.trace|;
    IssuedIs(g, w, items, i);
    forall k: nat | k < |h.trace| && h.trace[k].Issued?
      ensures GroundedAt(h, w, own, items, k)
    {
      if k < n {
        assert h.trace[k] == g.trace[k];
        GroundedStays(g, h, w, own, items, k);
      } else {
        NewDeleteGrounded(g, h, w, own, items, i, k);
      }
    }
    assert forall a :: a in g.trace ==> a in h.trace;
  }

  /** What issuing a delete appends. */
  lemma IssuedIs(g: Progress, w: World, items: seq<Candidate>, i: nat)
    requires i < |items|
    ensures var h := IssueDelete(g, w, items[i], i);
            if w.ledgerFails(i) then h.trace == g.trace && h.ledger == g.ledger && h.deleted == g.deleted
            else
              var issued := Issued(i, items[i].path, w.opId(i));
              && h.trace == g.trace + [Recorded(w.opId(i)), issued] && h.ledger == g.ledger + [w.opId(i)]
              && issued in h.trace
              && (h.deleted == g.deleted || h.deleted == g.deleted + [Deleted(i, items[i].msgId, items[i].path, w.opId(i))])
  {
    var h := IssueDelete(g, w, items[i], i);
    if !w.ledgerFails(i) { assert h.trace[|g.trace| + 1] == Issued(i, items[i].path, w.opId(i)); }
  }

  lemma NewDeleteGrounded(g: Progress, h: Progress, w: World, own: string, items: seq<Candidate>, i: nat, k: nat)
    requires i < |items| && Grounds(w, own, items, i)
    requires g.trace != [] && g.trace[|g.trace| - 1] == ReadAct(i, items[i].path)
    requires h.trace == g.trace + [Recorded(w.opId(i)), Issued(i, items[i].path, w.opId(i))] && h.ledger == g.ledger + [w.opId(i)]
    requires |g.trace| <= k < |h.trace| && h.trace[k].Issued?
    ensures GroundedAt(h, w, own, items, k)
  {
    hide Grounds;
    assert h.ledger[|g.ledger|] in h.ledger;
  }

  lemma GroundedStays(g: Progress, h: Progress, w: World, own: string, items: seq<Candidate>, k: nat)
    requires g.trace <= h.trace && g.ledger <= h.ledger && k < |g.trace| && g.trace[k].Issued? && GroundedAt(g, w, own, items, k)
    ensures GroundedAt(h, w, own, items, k)
  {
    hide Grounds;
    assert h.trace[k] == g.trace[k];
  }

  lemma StepGrounds(g: Progress, w: World, own: string, maxDeletes: nat, items: seq<Candidate>, i: nat)
    requires i < |items| && DeletesGrounded(g, w, own, items)
    ensures DeletesGrounded(Step(g, w, own, maxDeletes, items[i], i), w, own, items)
  {
    var h := Step(g, w, own, maxDeletes, items[i], i);
    var g1 := g.(trace := g.trace + [ReadAct(i, items[i].path)]);
    TraceGrows(g, g1, w, own, items);
    if h.trace == g.trace || h.trace == g1.trace {
      TraceGrows(g, h, w, own, items);
    } else {
      assert Grounds(w, own, items, i);
      DeleteIsGrounded(g1, w, own, items, i);
      hide DeletesGrounded, Grounds, IssueDelete;
    }
  }

  lemma StepOrders(g: Progress, w: World, own: string, maxDeletes: nat, items: seq<Candidate>, i: nat)
    requires i < |items| && DeletedInOrder(g, items, i) && |g.deleted| <= maxDeletes
    ensures var h := Step(g, w, own, maxDeletes, items[i], i); DeletedInOrder(h, items, i + 1) && |h.deleted| <= maxDeletes
  {
    hide Objection;
  }

  lemma {:induction false} RunKeepsInv(g: Progress, w: World, own: string, maxDeletes: nat, items: seq<Candidate>, i: nat)
    requires i <= |items| && RunInv(g, w, own, maxDeletes, items, i)
    ensures var r := ExecuteFrom(g, w, own, maxDeletes, items, i);
            && DeletedInOrder(r, items, |items|) && DeletesGrounded(r, w, own, items) && |r.deleted| <= maxDeletes
            && (r.ending == Examined ==> multiset(Indices(r)) == multiset(FirstN(|items|)))
    decreases |items| - i
  {
    hide DeletesGrounded, Indices, FirstN, Step;
    if i < |items| && g.ending == Examined {
      StepAccounts(g, w, own, maxDeletes, items, i);
      StepGrounds(g, w, own, maxDeletes, items, i);
      StepOrders(g, w, own, maxDeletes, items, i);
      RunKeepsInv(Step(g, w, own, maxDeletes, items[i], i), w, own, maxDeletes, items, i + 1);
    }
  }

  /**
   * However the world changes during the run: the deleted items are candidates in preview order, at
   * most the bound; every delete issued came right after a matching, eligible recheck of that path
   * and the ledger entry of its opId; and a run that was not cut short puts each candidate in
   * exactly one of deleted and skipped.
   */
  lemma CleanupIsGuarded(w: World, own: string, maxDeletes: Option<int>, items: seq<Candidate>)
    ensures var r := ExecuteFrom(Started, w, own, DeleteBound(maxDeletes), items, 0);
            && DeletedInOrder(r, items, |items|)
            && |r.deleted| <= DeleteBound(maxDeletes)
            && DeletesGrounded(r, w, own, items)
            && (r.ending == Examined ==> multiset(Indices(r)) == multiset(FirstN(|items|)))
  {
    assert Indices(Started) == FirstN(0);
    RunKeepsInv(Started, w, own, DeleteBound(maxDeletes), items, 0);
  }

  // ---- what the caller is told ------------------------------------------------------------

  /** A delete that was sent is named: as done, as failed, or as of unknown outcome. */
  ghost predicate Disclosed(r: Outcome, d: Act)
    requires d.Issued?
  {
    match r
    case Execution(deleted, skipped, _, _, unknown, _) =>
      || (exists x :: x in deleted && x.index == d.index && x.opId == d.opId)
      || Skipped(d.index, DeleteDidFail) in skipped
      || d.opId in unknown
    case RunRefused(_, deleted, unknown) =>
      (exists x :: x in deleted && x.index == d.index && x.opId == d.opId) || d.opId in unknown
    case Threw => false
  }

  /** Where each reply is recorded, and nothing else. */
  ghost predicate Booked(g: Progress, w: World, upTo: nat) {
    && (forall a :: a in g.trace && a.Issued? ==>
          && a.index < upTo && a.opId == w.opId(a.index)
          && match w.reply(a.index)
             case Deletion => exists x :: x in g.deleted && x.index == a.index && x.opId == a.opId
             case DeleteFailed => Skipped(a.index, DeleteDidFail) in g.skipped
             case _ => a.opId in g.unknown)
    && (forall x :: x in g.deleted ==> w.reply(x.index).Deletion?)
    && (forall op :: op in g.unknown ==>
          exists i: nat :: i < upTo && op == w.opId(i) && (w.reply(i).DeleteCancelled? || w.reply(i).DeletePrivate?))
  }

  lemma Replied(g: Progress, w: World, item: Candidate, i: nat)
    requires Booked(g, w, i)
    ensures Booked(IssueDelete(g, w, item, i), w, i + 1)
  {
    var h := IssueDelete(g, w, item, i);
    var d := Deleted(i, item.msgId, item.path, w.opId(i));
    assert forall a :: a in h.trace && a.Issued? ==> a in g.trace || a == Issued(i, item.path, w.opId(i));
    assert h.deleted == g.deleted || h.deleted == g.deleted + [d];
    assert h.deleted == g.deleted + [d] ==> d in h.deleted;
    assert forall x :: x in g.deleted ==> x in h.deleted;
    assert forall x :: x in g.skipped ==> x in h.skipped;
    assert forall x :: x in g.unknown ==> x in h.unknown;
    assert forall op :: op in h.unknown ==> op in g.unknown || op == w.opId(i);
  }

  lemma StepBooks(g: Progress, w: World, own: string, maxDeletes: nat, items: seq<Candidate>, i: nat)
    requires i < |items| && Booked(g, w, i)
    ensures Booked(Step(g, w, own, maxDeletes, items[i], i), w, i + 1)
  {
    hide Objection, IssueDelete;
    var g1 := g.(trace := g.trace + [ReadAct(i, items[i].path)]);
    assert forall a :: a in g1.trace && a.Issued? ==> a in g.trace;
    Replied(g1, w, items[i], i);
  }

  lemma {:induction false} RunBooks(g: Progress, w: World, own: string, maxDeletes: nat, items: seq<Candidate>, i: nat)
    requires i <= |items| && Booked(g, w, i)
    ensures Booked(ExecuteFrom(g, w, own, maxDeletes, items, i), w, |items|)
    decreases |items| - i
  {
    if i < |items| && g.ending == Examined {
      StepBooks(g, w, own, maxDeletes, items, i);
      hide Booked, Step;
      RunBooks(Step(g, w, own, maxDeletes, items[i], i), w, own, maxDeletes, items, i + 1);
    }
  }

  /** Minted operation ids are all different. */
  ghost predicate DistinctOps(w: World) {
    forall i: nat, j: nat :: w.opId(i) == w.opId(j) ==> i == j
  }

  ghost predicate SomeIssued(g: Progress) {
    exists a :: a in g.trace && a.Issued?
  }

  ghost predicate SomeFailed(g: Progress, w: World) {
    exists a :: a in g.trace && a.Issued? && w.reply(a.index).DeleteFailed?
  }

  /**
   * Every delete that was sent is in the returned record exactly when the run did not turn private
   * after a failed delete, and the ledger did not throw after any delete.
   */
  lemma EveryIssuedDeleteIsDisclosedIff(preview: Preview, own: string, maxDeletes: Option<int>, w: World)
    requires preview.Plan? && DistinctOps(w)
    ensures var g := Executed(preview, own, maxDeletes, w);
            (forall a :: a in g.trace && a.Issued? ==> Disclosed(OutcomeOf(g, own), a))
              <==> !(g.ending == WentPrivate && SomeFailed(g, w)) && !(g.ending == LedgerThrew && SomeIssued(g))
  {
    hide ExecuteFrom;
    var items := preview.candidates;
    RunBooks(Started, w, own, DeleteBound(maxDeletes), items, 0);
    var g := Executed(preview, own, maxDeletes, w);
    if g.ending == WentPrivate && SomeFailed(g, w) {
      var a :| a in g.trace && a.Issued? && w.reply(a.index).DeleteFailed?;
      FailedIsNowhere(g, w, own, |items|, a);
    }
  }

  lemma FailedIsNowhere(g: Progress, w: World, own: string, upTo: nat, a: Act)
    requires Booked(g, w, upTo) && DistinctOps(w) && g.ending == WentPrivate
    requires a in g.trace && a.Issued? && w.reply(a.index).DeleteFailed?
    ensures !Disclosed(OutcomeOf(g, own), a)
  {
    if a.opId in g.unknown {
      var i: nat :| i < upTo && a.opId == w.opId(i) && (w.reply(i).DeleteCancelled? || w.reply(i).DeletePrivate?);
      assert false;
    }
  }

  const TwiceListed: seq<Candidate> := [Candidate("id", "path", "then", None), Candidate("id", "path", "then", None)]

  /** A run in which that happens: the first delete fails, then private mode begins. */
  lemma FailedDeleteThenPrivateIsUndisclosed() returns (w: World)
    ensures var g := Executed(Plan("me", TwiceListed), "me", None, w);
            && Issued(0, "path", w.opId(0)) in g.trace
            && OutcomeOf(g, "me") == RunRefused(PrivateMode, [], [])
  {
    var view := ReadView("id", "me", "then", Seconds(0.0));
    w := World((i: nat) => false, (i: nat) => i == 1, (i: nat) => Fresh(view, None), (i: nat) => Some(0),
               (i: nat) => false, (i: nat) => DeleteFailed, (i: nat) => "op", (p: string) => Some("id"),
               (t: string) => Some(0), GC_GRACE_MS + 1);
    var items := TwiceListed;
    var one := Step(Started, w, "me", 100, items[0], 0);
    assert one.trace == [ReadAct(0, "path"), Recorded("op"), Issued(0, "path", "op")];
    assert one.trace[2] in one.trace;
    var two := Step(one, w, "me", 100, items[1], 1);
    assert ExecuteFrom(two, w, "me", 100, items, 2) == two;
    assert ExecuteFrom(one, w, "me", 100, items, 1) == two;
  }
}
