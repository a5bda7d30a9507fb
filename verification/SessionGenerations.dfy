/**
 * The session coordinator over whole runs: which starts begin a new generation, where it says the session
 * is, and which entries a navigation consumes.
 */
module SessionGenerations {
  import opened Common
  import opened Coordinator

  datatype Event =
    | Starts(session: Option<string>, leaf: Option<string>)
    | Offers(ids: seq<string>, aborted: bool)
    | Navigates(session: Option<string>, oldLeaf: Option<string>, newLeaf: Option<string>, leaf: Option<string>)
    | Consumes(ids: seq<string>)
    | ShutsDown
    | Dies

  function Apply(c: Coord, e: Event): Coord {
    match e
    case Starts(session, leaf) => SessionStart(c, session, leaf)
    case Offers(ids, aborted) => BeforeTree(c, ids, aborted)
    case Navigates(session, oldLeaf, newLeaf, leaf) => Tree(c, session, oldLeaf, newLeaf, leaf)
    case Consumes(ids) => c.(consumed := MarkConsumed(c.consumed, ids))
    case ShutsDown => Shutdown(c)
    case Dies => Reloaded(c)
  }

  function Run(c: Coord, events: seq<Event>): Coord
    decreases |events|
  {
    if events == [] then c else Apply(Run(c, events[..|events| - 1]), events[|events| - 1])
  }

  // ---- generations -------------------------------------------------------------------------------------------

  /** The event leaves the session open where it is, or moves within it. */
  ghost predicate StaysIn(e: Event, session: Option<string>) {
    e.Offers? || e.Consumes? || (e.Starts? && e.session == session) || (e.Navigates? && e.session == session)
  }

  ghost predicate AllStayIn(events: seq<Event>, session: Option<string>) {
    forall e :: e in events ==> StaysIn(e, session)
  }

  lemma {:induction false} LiveSession(c: Coord, session: Option<string>, leaf: Option<string>, events: seq<Event>)
    requires AllStayIn(events, session)
    ensures var t := Run(Apply(c, Starts(session, leaf)), events);
            t.active && t.sessionId == session
    decreases |events|
  {
    if events != [] {
      LiveSession(c, session, leaf, events[..|events| - 1]);
      assert events[|events| - 1] in events;
    }
  }

  /**
   * Once a session is started, and through anything that stays in it, starting it again keeps the
   * generation and only refreshes the branch; starting another one begins a new generation there.
   */
  lemma RepeatedStartKeepsTheGeneration(c: Coord, session: Option<string>, leaf: Option<string>, events: seq<Event>,
                                        other: Option<string>, newLeaf: Option<string>)
    requires AllStayIn(events, session)
    ensures var s := Run(Apply(c, Starts(session, leaf)), events);
            var t := Apply(s, Starts(other, newLeaf));
            && t.generation == s.generation + (if other == session then 0 else 1)
            && t.sessionId == other && t.branchId == newLeaf && t.active
            && t.consumed == s.consumed && t.stash == s.stash
  {
    LiveSession(c, session, leaf, events);
  }

  lemma {:induction false} Closed(c: Coord, events: seq<Event>)
    requires !c.active && forall e :: e in events ==> e.Offers? || e.Consumes? || e.ShutsDown? || e.Dies?
    ensures var t := Run(c, events); !t.active && t.generation == c.generation
    decreases |events|
  {
    if events != [] {
      Closed(c, events[..|events| - 1]);
      assert events[|events| - 1] in events;
    }
  }

  /** After a shutdown or a death the next start, or a navigation that comes first, begins a new generation. */
  lemma StartAfterTheEndIsNew(c: Coord, end: Event, events: seq<Event>, next: Event)
    requires end.ShutsDown? || end.Dies?
    requires forall e :: e in events ==> e.Offers? || e.Consumes? || e.ShutsDown? || e.Dies?
    requires next.Starts? || next.Navigates?
    ensures var t := Apply(Run(Apply(c, end), events), next);
            && t.generation == c.generation + 1 && t.active
            && t.sessionId == next.session && t.branchId == next.leaf
  {
    Closed(Apply(c, end), events);
  }

  /** In an open session a navigation begins a new generation exactly when it goes elsewhere and is no replay of the last one. */
  lemma NavigationIsNewIff(c: Coord, session: Option<string>, leaf: Option<string>, events: seq<Event>, e: Event)
    requires AllStayIn(events, session) && e.Navigates? && e.session == session
    ensures var s := Run(Apply(c, Starts(session, leaf)), events);
            var t := Apply(s, e);
            && t.lastTree == Some((e.oldLeaf, e.newLeaf)) && t.stash == [] && t.active
            && if e.oldLeaf != e.newLeaf && s.lastTree != Some((e.oldLeaf, e.newLeaf)) then
                 t.generation == s.generation + 1 && t.sessionId == session && t.branchId == e.newLeaf
               else t.generation == s.generation && t.branchId == s.branchId
  {
    LiveSession(c, session, leaf, events);
  }

  ghost predicate Once(ids: seq<string>) {
    forall i, k :: 0 <= i < k < |ids| ==> ids[i] != ids[k]
  }

  lemma {:induction false} MarkingExtends(consumed: seq<string>, ids: seq<string>)
    requires Once(consumed)
    ensures consumed <= MarkConsumed(consumed, ids) && Once(MarkConsumed(consumed, ids))
    decreases |ids|
  {
    if ids != [] { MarkingExtends(consumed, ids[..|ids| - 1]); }
  }

  /** In every run the registry holds each entry once and only grows at its end, and a death loses neither it nor the place. */
  lemma {:induction false} RegistryOnlyGrows(events: seq<Event>, e: Event)
    ensures var c := Run(NewCoord, events);
            var t := Apply(c, e);
            && Once(c.consumed) && c.consumed <= t.consumed
            && (e.Dies? ==> t.consumed == c.consumed && t.generation == c.generation
                            && t.sessionId == c.sessionId && t.branchId == c.branchId)
    decreases |events|
  {
    hide MarkConsumed;
    if events != [] { RegistryOnlyGrows(events[..|events| - 1], events[|events| - 1]); }
    var c := Run(NewCoord, events);
    if events != [] {
      var before, last := Run(NewCoord, events[..|events| - 1]), events[|events| - 1];
      MarkingExtends(before.consumed, if last.Consumes? then last.ids else before.stash);
    }
    MarkingExtends(c.consumed, if e.Consumes? then e.ids else c.stash);
  }

  // ---- what navigation consumes ----------------------------------------------------------------------------------

  /** The event empties or replaces what was offered. */
  ghost predicate Clears(c: Coord, e: Event) {
    (e.Offers? && !e.aborted) || (e.Navigates? && c.active) || e.ShutsDown? || e.Dies?
  }

  /** The entry was offered for consumption, and nothing cleared the offer since. */
  ghost predicate Offered(c: Coord, events: seq<Event>, id: string) {
    exists k :: 0 <= k < |events| && OfferedAt(c, events, id, k)
  }

  ghost predicate OfferedAt(c: Coord, events: seq<Event>, id: string, k: nat)
    requires k < |events|
  {
    && events[k].Offers? && !events[k].aborted && id in events[k].ids
    && forall m :: k < m < |events| ==> !Clears(Run(c, events[..m]), events[m])
  }

  lemma OfferedNext(c: Coord, events: seq<Event>, e: Event, id: string)
    ensures Offered(c, events + [e], id) <==>
              (e.Offers? && !e.aborted && id in e.ids) || (Offered(c, events, id) && !Clears(Run(c, events), e))
  {
    hide Run, Clears;
    var more, n := events + [e], |events|;
    assert more[..n] == events && more[n] == e;
    if Offered(c, more, id) {
      var k :| 0 <= k < |more| && OfferedAt(c, more, id, k);
      if k < n {
        assert !Clears(Run(c, more[..n]), more[n]);
        forall m | k < m < n ensures !Clears(Run(c, events[..m]), events[m]) {
          assert more[..m] == events[..m] && more[m] == events[m];
        }
        assert OfferedAt(c, events, id, k);
      }
    }
    if e.Offers? && !e.aborted && id in e.ids { assert OfferedAt(c, more, id, n); }
    if Offered(c, events, id) && !Clears(Run(c, events), e) {
      var k :| 0 <= k < n && OfferedAt(c, events, id, k);
      forall m | k < m < |more| ensures !Clears(Run(c, more[..m]), more[m]) {
        if m < n { assert more[..m] == events[..m] && more[m] == events[m]; }
      }
      assert OfferedAt(c, more, id, k);
    }
  }

  lemma {:induction false} StashIsTheOffer(events: seq<Event>, id: string)
    ensures id in Run(NewCoord, events).stash <==> Offered(NewCoord, events, id)
    decreases |events|
  {
    if events != [] {
      var init, e := events[..|events| - 1], events[|events| - 1];
      StashIsTheOffer(init, id);
      OfferedNext(NewCoord, init, e, id);
      assert init + [e] == events;
      hide Run, Offered, MarkConsumed;
    }
  }

  /** The event consumes the entry: its work was accepted, or the navigation it was offered for goes ahead. */
  ghost predicate ConsumedAt(events: seq<Event>, id: string, m: nat)
    requires m < |events|
  {
    || (events[m].Consumes? && id in events[m].ids)
    || (events[m].Navigates? && Run(NewCoord, events[..m]).active && Offered(NewCoord, events[..m], id))
  }

  lemma StepConsumes(events: seq<Event>, e: Event, id: string)
    ensures id in Apply(Run(NewCoord, events), e).consumed <==>
              id in Run(NewCoord, events).consumed || ConsumedAt(events + [e], id, |events|)
  {
    hide Run, Offered, Apply;
    StashIsTheOffer(events, id);
    EventConsumes(Run(NewCoord, events), e, id);
    assert (events + [e])[..|events|] == events;
  }

  lemma EventConsumes(c: Coord, e: Event, id: string)
    ensures id in Apply(c, e).consumed <==>
              id in c.consumed || (e.Consumes? && id in e.ids) || (e.Navigates? && c.active && id in c.stash)
  {
    hide MarkConsumed;
  }

  /**
   * In every run an entry is consumed exactly when it was accepted, or offered before a navigation that
   * went ahead in an open session with nothing in between that replaced or dropped the offer.
   */
  lemma {:induction false} ConsumedIff(events: seq<Event>, id: string)
    ensures id in Run(NewCoord, events).consumed <==> exists m :: 0 <= m < |events| && ConsumedAt(events, id, m)
    decreases |events|
  {
    hide ConsumedAt, Apply;
    if events != [] {
      var init, e := events[..|events| - 1], events[|events| - 1];
      assert init + [e] == events;
      ConsumedIff(init, id);
      StepConsumes(init, e, id);
      forall m | 0 <= m < |init| ensures ConsumedAt(init, id, m) <==> ConsumedAt(events, id, m) {
        SamePrefixConsumes(init, events, id, m);
      }
    }
  }

  lemma SamePrefixConsumes(init: seq<Event>, events: seq<Event>, id: string, m: nat)
    requires m < |init| <= |events| && events[..|init|] == init
    ensures ConsumedAt(init, id, m) <==> ConsumedAt(events, id, m)
  {
    assert init[..m] == events[..m] && init[m] == events[m];
  }
}
