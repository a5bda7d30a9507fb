/**
 * Why a cleanup deletes what it deletes, skips what it skips and stops where it stops, said of the
 * candidates and of the world alone.
 */
module CleanupReasons {
  import opened Common
  import opened BoardCleanup

  /** A run is refused before it begins for the first of these that holds. */
  lemma RefusedUpfrontIff(preview: Preview, own: string, isPrivate: bool)
    ensures var r := Upfront(preview, own, isPrivate);
            && (r == None <==> preview.Plan? && own != "" && own == preview.ownFrom && !isPrivate)
            && (r == Some(NoPreview) <==> preview.PlanFailed?)
            && (r == Some(NoIdentity) <==> preview.Plan? && own == "")
            && (r == Some(IdentityChanged) <==> preview.Plan? && own != "" && own != preview.ownFrom)
  {
  }

  // ---- the ruling on one message ------------------------------------------------------------------------

  ghost predicate TimesReadable(view: ReadView, instant: string -> Option<int>) {
    instant(view.created).Some? && (view.ttl.NoTtl? || (view.ttl.Seconds? && view.ttl.n >= 0.0))
  }

  ghost predicate Expired(view: ReadView, now: int, instant: string -> Option<int>) {
    instant(view.created).Some? && view.ttl.Seconds? && instant(view.created).value as real + view.ttl.n * 1000.0 < now as real
  }

  /** Held back for the first of these reasons that holds. */
  ghost predicate HeldFor(view: ReadView, ackedAt: Option<int>, own: string, now: int, instant: string -> Option<int>, held: Held) {
    match held
    case NotOwner => view.from != own
    case MalformedTime => view.from == own && !TimesReadable(view, instant)
    case MissingBasis => view.from == own && TimesReadable(view, instant) && !(Expired(view, now, instant) && ackedAt.Some?)
    case WithinGrace =>
      && view.from == own && TimesReadable(view, instant) && Expired(view, now, instant) && ackedAt.Some?
      && !Settled(view, ackedAt, now, instant)
  }

  lemma RulingIff(view: ReadView, ackedAt: Option<int>, own: string, now: int, instant: string -> Option<int>, held: Held)
    ensures Evaluate(view, ackedAt, own, now, instant) == Ineligible(held) <==> HeldFor(view, ackedAt, own, now, instant, held)
  {
    EligibleIff(view, ackedAt, own, now, instant);
  }

  // ---- one candidate -------------------------------------------------------------------------------------

  ghost predicate PathCarriesTheId(w: World, item: Candidate) {
    w.idOf(item.path) == Some(item.msgId)
  }

  ghost predicate Unchanged(item: Candidate, view: ReadView, etag: Option<string>, own: string) {
    view.msgId == item.msgId && view.created == item.created && view.from == own && (item.etag == None || etag == item.etag)
  }

  /** The reason a candidate is skipped for. */
  ghost predicate SkippedBecause(w: World, own: string, items: seq<Candidate>, k: nat, why: SkipWhy)
    requires k < |items|
  {
    if !PathCarriesTheId(w, items[k]) then why == IdMismatch
    else
      match w.recheck(k)
      case ReadFailed => why == Unreadable
      case Refused(reason) => why == RefusedRead(reason)
      case Fresh(view, etag) =>
        if !Unchanged(items[k], view, etag, own) then why == Changed
        else if Settled(view, w.ackedAt(k), w.now, w.instant) then why == DeleteDidFail && w.reply(k).DeleteFailed?
        else why.Ruled? && HeldFor(view, w.ackedAt(k), own, w.now, w.instant, why.held)
      case _ => false
  }

  /** The run goes on past this candidate. */
  ghost predicate Passable(w: World, own: string, items: seq<Candidate>, k: nat)
    requires k < |items|
  {
    && !w.aborted(k) && !w.isPrivate(k)
    && (PathCarriesTheId(w, items[k]) ==> !w.recheck(k).ReadPrivate? && !w.recheck(k).ReadCancelled?)
    && (Grounds(w, own, items, k) ==> !w.ledgerFails(k) && (w.reply(k).Deletion? || w.reply(k).DeleteFailed?))
  }

  /** It is deleted when there are grounds and the backend does it, and skipped with its reason otherwise. */
  ghost predicate AccountedFor(g: Progress, w: World, own: string, items: seq<Candidate>, k: nat)
    requires k < |items|
  {
    if Grounds(w, own, items, k) && w.reply(k).Deletion? then Deleted(k, items[k].msgId, items[k].path, w.opId(k)) in g.deleted
    else exists s :: s in g.skipped && s.index == k && SkippedBecause(w, own, items, k, s.why)
  }

  /** Why a run that is at candidate `n` stops there. */
  ghost predicate StopsAt(w: World, own: string, items: seq<Candidate>, n: nat, deletedSoFar: nat, bound: nat, ending: Ending)
    requires n < |items|
  {
    if w.aborted(n) then ending == WasAborted
    else if w.isPrivate(n) then ending == WentPrivate
    else if deletedSoFar >= bound then ending == BoundHit
    else if !PathCarriesTheId(w, items[n]) then false
    else
      match w.recheck(n)
      case ReadPrivate => ending == WentPrivate
      case ReadCancelled => ending == WasAborted
      case _ =>
        Grounds(w, own, items, n)
        && if w.ledgerFails(n) then ending == LedgerThrew
           else match w.reply(n)
                case DeleteCancelled => ending == WasAborted
                case DeletePrivate => ending == WentPrivate
                case _ => false
  }

  /** The first `n` candidates were passed, and nothing else is in the record. */
  ghost predicate Examining(g: Progress, w: World, own: string, items: seq<Candidate>, n: nat)
    requires n <= |items|
  {
    && (forall k: nat :: k < n ==> Passable(w, own, items, k) && AccountedFor(g, w, own, items, k))
    && (forall d :: d in g.deleted ==> d.index < n && Grounds(w, own, items, d.index) && w.reply(d.index).Deletion?)
    && (forall s :: s in g.skipped ==> s.index < n && SkippedBecause(w, own, items, s.index, s.why))
  }

  /** What a step adds to the record. */
  ghost predicate Adds(g: Progress, h: Progress, w: World, own: string, items: seq<Candidate>, i: nat)
    requires i < |items|
  {
    if Grounds(w, own, items, i) && w.reply(i).Deletion? then
      h.deleted == g.deleted + [Deleted(i, items[i].msgId, items[i].path, w.opId(i))] && h.skipped == g.skipped
    else
      && h.deleted == g.deleted && |h.skipped| == |g.skipped| + 1 && h.skipped[..|g.skipped|] == g.skipped
      && h.skipped[|g.skipped|].index == i && SkippedBecause(w, own, items, i, h.skipped[|g.skipped|].why)
  }

  lemma StepIs(g: Progress, w: World, own: string, bound: nat, items: seq<Candidate>, i: nat)
    requires i < |items| && g.ending == Examined
    ensures var h := Step(g, w, own, bound, items[i], i);
            if h.ending == Examined then Passable(w, own, items, i) && |g.deleted| < bound && Adds(g, h, w, own, items, i)
            else h.deleted == g.deleted && h.skipped == g.skipped && StopsAt(w, own, items, i, |g.deleted|, bound, h.ending)
  {
    if w.recheck(i).Fresh? {
      var view := w.recheck(i).view;
      EligibleIff(view, w.ackedAt(i), own, w.now, w.instant);
      var ruling := Evaluate(view, w.ackedAt(i), own, w.now, w.instant);
      if ruling.Ineligible? { RulingIff(view, w.ackedAt(i), own, w.now, w.instant, ruling.reason); }
    }
    hide Evaluate, Settled, HeldFor;
  }

  lemma AddingKeepsExamining(g: Progress, h: Progress, w: World, own: string, items: seq<Candidate>, i: nat)
    requires i < |items| && Examining(g, w, own, items, i) && Passable(w, own, items, i) && Adds(g, h, w, own, items, i)
    ensures Examining(h, w, own, items, i + 1)
  {
    hide Grounds, Passable, SkippedBecause;
    assert forall d :: d in g.deleted ==> d in h.deleted;
    forall s | s in g.skipped ensures s in h.skipped {
      var k :| 0 <= k < |g.skipped| && g.skipped[k] == s;
      assert h.skipped[..|g.skipped|][k] == s;
    }
    forall s | s in h.skipped ensures s in g.skipped || (s == h.skipped[|g.skipped|] && |h.skipped| > |g.skipped|) {
      var k :| 0 <= k < |h.skipped| && h.skipped[k] == s;
      if k < |g.skipped| { assert h.skipped[..|g.skipped|][k] == g.skipped[k]; }
    }
    if |h.skipped| > |g.skipped| { assert h.skipped[|g.skipped|] in h.skipped; }
    if h.deleted != g.deleted { assert h.deleted[|g.deleted|] in h.deleted; }
    forall k: nat | k < i + 1 ensures Passable(w, own, items, k) && AccountedFor(h, w, own, items, k) {
      if k < i { StillAccountedFor(g, h, w, own, items, k); }
    }
    hide AccountedFor;
  }

  lemma StillAccountedFor(g: Progress, h: Progress, w: World, own: string, items: seq<Candidate>, k: nat)
    requires k < |items| && AccountedFor(g, w, own, items, k)
    requires (forall d :: d in g.deleted ==> d in h.deleted) && forall s :: s in g.skipped ==> s in h.skipped
    ensures AccountedFor(h, w, own, items, k)
  {
    hide Grounds, SkippedBecause;
  }

  lemma {:induction false} RunExamines(g: Progress, w: World, own: string, bound: nat, items: seq<Candidate>, i: nat) returns (n: nat)
    requires i <= |items| && g.ending == Examined && Examining(g, w, own, items, i)
    ensures var r := ExecuteFrom(g, w, own, bound, items, i);
            && n <= |items| && Examining(r, w, own, items, n)
            && if n == |items| then r.ending == Examined else StopsAt(w, own, items, n, |r.deleted|, bound, r.ending)
    decreases |items| - i
  {
    hide Examining, Step, StopsAt, Passable, Adds;
    n := i;
    if i < |items| {
      StepIs(g, w, own, bound, items, i);
      var h := Step(g, w, own, bound, items[i], i);
      if h.ending == Examined {
        AddingKeepsExamining(g, h, w, own, items, i);
        n := RunExamines(h, w, own, bound, items, i + 1);
      } else {
        SameRecord(g, h, w, own, items, i);
        assert ExecuteFrom(h, w, own, bound, items, i + 1) == h;
      }
    }
  }

  lemma SameRecord(g: Progress, h: Progress, w: World, own: string, items: seq<Candidate>, i: nat)
    requires i <= |items| && Examining(g, w, own, items, i) && h.deleted == g.deleted && h.skipped == g.skipped
    ensures Examining(h, w, own, items, i)
  {
    hide Grounds, Passable, SkippedBecause, AccountedFor;
    forall k: nat | k < i ensures Passable(w, own, items, k) && AccountedFor(h, w, own, items, k) {
      assert AccountedFor(g, w, own, items, k);
      StillAccountedFor(g, h, w, own, items, k);
    }
  }

  /**
   * However the world changes, a run passes the candidates in order up to the first one that stops it, for
   * the reason given; those before it are deleted exactly when there are grounds and the backend does it,
   * and skipped for their own reason otherwise; nothing else is in the record.
   */
  lemma EveryCandidateHasItsReason(w: World, own: string, maxDeletes: Option<int>, items: seq<Candidate>) returns (n: nat)
    ensures var r := ExecuteFrom(Started, w, own, DeleteBound(maxDeletes), items, 0);
            && n <= |items| && Examining(r, w, own, items, n)
            && if n == |items| then r.ending == Examined else StopsAt(w, own, items, n, |r.deleted|, DeleteBound(maxDeletes), r.ending)
  {
    hide ExecuteFrom, StopsAt;
    n := RunExamines(Started, w, own, DeleteBound(maxDeletes), items, 0);
  }

  /** The caller is told the reason: nothing cut the run short unless the record says so, and it says which. */
  lemma RecordTellsTheReason(preview: Preview, own: string, maxDeletes: Option<int>, w: World) returns (n: nat)
    requires preview.Plan?
    ensures var items, r := preview.candidates, OutcomeOf(Executed(preview, own, maxDeletes, w), own);
            && n <= |items|
            && match r
               case Execution(deleted, _, aborted, boundHit, _, ownFrom) =>
                 && ownFrom == own && !(aborted && boundHit)
                 && (!aborted && !boundHit <==> n == |items|)
                 && (aborted ==> StopsAt(w, own, items, n, |deleted|, DeleteBound(maxDeletes), WasAborted))
                 && (boundHit ==> StopsAt(w, own, items, n, |deleted|, DeleteBound(maxDeletes), BoundHit))
               case RunRefused(reason, deleted, _) =>
                 reason == PrivateMode && n < |items| && StopsAt(w, own, items, n, |deleted|, DeleteBound(maxDeletes), WentPrivate)
               case Threw => n < |items| && w.ledgerFails(n) && Grounds(w, own, items, n)
  {
    hide ExecuteFrom, Examining;
    n := EveryCandidateHasItsReason(w, own, maxDeletes, preview.candidates);
    hide Grounds;
  }
}
