/**
 * Board delivery over whole runs: cycles that end, pause, throw or die between any two effects,
 * with acknowledgments, local cleanup and publications in between.
 */
module BoardSafety {
  import opened Common
  import opened BoardState
  import opened BoardDelivery

  /**
   * `log` is the backend's changes feed so far. `handled` is history: the paths whose callback
   * resolved, or whose skip was recorded in memory.
   */
  datatype Sys = Sys(files: Files, log: seq<string>, handled: set<string>)

  const Init: Sys := Sys(Files(State([], None), State([], None)), [], {})

  datatype Event =
    | Publish(path: string)
    | Cycle(env: Env)
    | CrashDuring(env: Env, effects: nat)
    | Restart
    | AckMessage(id: string, now: int, persist: Persist)
    | CollectOld(now: int, persist: Persist)

  function PathOf(e: Effect): set<string> {
    match e
    case Hand(it) => {it.path}
    case Mark(entry) => {entry.path}
    case MoveCursor(_) => {}
  }

  function Paths(es: seq<Effect>): set<string> {
    if es == [] then {} else PathOf(es[0]) + Paths(es[1..])
  }

  /** A callback that threw handled nothing; an entry is in memory also when its rewrite faulted. */
  function Achieved(e: Effect, p: Persist): set<string> {
    if e.Hand? && p != Written then {} else PathOf(e)
  }

  /** The paths handled by the effects that were attempted. */
  function Touched(es: seq<Effect>, outcome: nat -> Persist, k: nat): set<string>
    decreases |es|
  {
    if es == [] then {}
    else Achieved(es[0], outcome(k)) + (if outcome(k) == Written then Touched(es[1..], outcome, k + 1) else {})
  }

  function Perform(s: Sys, plan: seq<Effect>, env: Env): Sys {
    s.(files := Execute(s.files, plan, env.outcome, 0), handled := s.handled + Touched(plan, env.outcome, 0))
  }

  function Restarted(s: Sys): Sys {
    s.(files := Files(s.files.disk, s.files.disk))
  }

  function Apply(cfg: Config, s: Sys, e: Event): Sys {
    match e
    case Publish(path) => s.(log := s.log + [path])
    case Cycle(env) => Perform(s, CyclePlan(cfg, env, s.files.mem), env)
    case CrashDuring(env, n) =>
      var plan := CyclePlan(cfg, env, s.files.mem);
      Restarted(Perform(s, plan[..Min(n, |plan|)], env))
    case Restart => Restarted(s)
    case AckMessage(id, now, p) => s.(files := Ack(s.files, id, now, p))
    case CollectOld(now, p) => s.(files := Collect(s.files, now, p))
  }

  function Run(cfg: Config, s: Sys, events: seq<Event>): Sys
    decreases |events|
  {
    if events == [] then s else Run(cfg, Apply(cfg, s, events[0]), events[1..])
  }

  // ---- what is assumed of the feed ------------------------------------------------------

  function Position(since: Option<nat>): nat {
    if since.Some? then since.value else 0
  }

  /** A page lists at least every change between the cursor it was asked for and the one it returns. */
  ghost predicate HonestPage(log: seq<string>, since: Option<nat>, page: Fetch) {
    page.Page? && page.lastSeq.Some? ==>
      && Position(since) <= page.lastSeq.value <= |log|
      && forall i :: Position(since) <= i < page.lastSeq.value ==> log[i] in page.changes
  }

  ghost predicate HonestFeed(cfg: Config, env: Env, log: seq<string>, page: nat, since: Option<nat>)
    decreases cfg.maxPages - page
  {
    page < cfg.maxPages ==>
      && HonestPage(log, since, env.feed(page))
      && (env.feed(page).Page? && env.feed(page).lastSeq.Some? ==> HonestFeed(cfg, env, log, page + 1, env.feed(page).lastSeq))
  }

  ghost predicate HonestEvent(cfg: Config, s: Sys, e: Event) {
    match e
    case Cycle(env) => HonestFeed(cfg, env, s.log, 0, s.files.mem.lastSeq)
    case CrashDuring(env, _) => HonestFeed(cfg, env, s.log, 0, s.files.mem.lastSeq)
    case _ => true
  }

  ghost predicate HonestRun(cfg: Config, s: Sys, events: seq<Event>)
    decreases |events|
  {
    events != [] ==> HonestEvent(cfg, s, events[0]) && HonestRun(cfg, Apply(cfg, s, events[0]), events[1..])
  }

  // ---- the invariant -----------------------------------------------------------------------

  /** A board path of message `id`. */
  predicate Bears(names: Names, path: string, id: string) {
    IsBoardPath(names, path) && names.idOf(path) == Some(id)
  }

  /** The path itself, or another board path that carries the same message id. */
  ghost predicate Handled(names: Names, handled: set<string>, path: string) {
    path in handled || exists q :: q in handled && IsBoardPath(names, q) && names.idOf(q) == names.idOf(path)
  }

  ghost predicate CursorBehind(names: Names, s: Sys, cursor: Option<nat>) {
    cursor.Some? ==>
      && cursor.value <= |s.log|
      && forall i :: 0 <= i < cursor.value && IsBoardPath(names, s.log[i]) ==> Handled(names, s.handled, s.log[i])
  }

  /** Every retained entry names a handled path, under that path's message id. */
  ghost predicate EntriesHandled(names: Names, handled: set<string>, es: seq<DeliveryEntry>) {
    forall e :: e in es ==> e.path in handled && Bears(names, e.path, e.msgId)
  }

  ghost predicate StateGood(names: Names, s: Sys, st: State) {
    EntriesHandled(names, s.handled, st.entries) && CursorBehind(names, s, st.lastSeq)
  }

  ghost predicate Inv(cfg: Config, s: Sys) {
    && FilesOk(s.files)
    && StateGood(cfg.names, s, s.files.mem)
    && StateGood(cfg.names, s, s.files.disk)
  }

  // ---- what a plan contains ------------------------------------------------------------------

  ghost predicate Proper(names: Names, items: seq<Item>) {
    forall it :: it in items ==> Bears(names, it.path, it.msgId)
  }

  /** A board path met on the way is retained already, or pending. */
  lemma {:induction false} TakeCovers(names: Names, known: seq<DeliveryEntry>, pending: seq<Item>, paths: seq<string>)
    requires Proper(names, pending)
    ensures var after := Take(names, known, pending, paths);
            && Proper(names, after)
            && pending <= after
            && (forall p :: p in paths && IsBoardPath(names, p) ==>
                  names.idOf(p).value in EntryIds(known) || names.idOf(p).value in ItemIds(after))
  {
    if paths != [] {
      var init, path := paths[..|paths| - 1], paths[|paths| - 1];
      TakeCovers(names, known, pending, init);
      var before, after := Take(names, known, pending, init), Take(names, known, pending, paths);
      assert paths == init + [path];
      if IsBoardPath(names, path) && after != before {
        assert after[|before|] in after;
      }
    }
  }

  ghost predicate DistinctItems(known: seq<DeliveryEntry>, items: seq<Item>) {
    && (forall it :: it in items ==> it.msgId !in EntryIds(known))
    && (forall i, j :: 0 <= i < j < |items| ==> items[i].msgId != items[j].msgId)
  }

  lemma {:induction false} TakeDistinct(names: Names, known: seq<DeliveryEntry>, pending: seq<Item>, paths: seq<string>)
    requires DistinctItems(known, pending)
    ensures DistinctItems(known, Take(names, known, pending, paths))
  {
    if paths != [] {
      var before := Take(names, known, pending, paths[..|paths| - 1]);
      TakeDistinct(names, known, pending, paths[..|paths| - 1]);
      forall i | 0 <= i < |before| ensures before[i].msgId in ItemIds(before) {
        assert before[i] in before;
      }
    }
  }

  ghost predicate Met(names: Names, known: seq<DeliveryEntry>, items: seq<Item>, path: string) {
    IsBoardPath(names, path) ==>
      names.idOf(path).value in EntryIds(known) || names.idOf(path).value in ItemIds(items)
  }

  /** Everything between the cursor asked for and the last one seen was met. */
  ghost predicate SegmentMet(cfg: Config, log: seq<string>, known: seq<DeliveryEntry>, from: nat, d: Discovery) {
    && Proper(cfg.names, d.pending)
    && DistinctItems(known, d.pending)
    && (d.lastSeqSeen.Some? ==>
          && from <= d.lastSeqSeen.value <= |log|
          && forall i :: from <= i < d.lastSeqSeen.value ==> Met(cfg.names, known, d.pending, log[i]))
  }

  lemma PageMet(cfg: Config, env: Env, log: seq<string>, known: seq<DeliveryEntry>, from: nat, page: nat,
                since: Option<nat>, d: Discovery)
    requires page < cfg.maxPages && env.feed(page).Page? && HonestPage(log, since, env.feed(page))
    requires SegmentMet(cfg, log, known, from, d)
    requires if d.lastSeqSeen.Some? then since == d.lastSeqSeen else Position(since) == from
    ensures var changes, lastSeq := env.feed(page).changes, env.feed(page).lastSeq;
            var taken := d.(pending := Take(cfg.names, known, d.pending, changes));
            && SegmentMet(cfg, log, known, from, taken)
            && (lastSeq.Some? ==> SegmentMet(cfg, log, known, from, taken.(lastSeqSeen := lastSeq)))
  {
    var changes, lastSeq := env.feed(page).changes, env.feed(page).lastSeq;
    var after := Take(cfg.names, known, d.pending, changes);
    TakeCovers(cfg.names, known, d.pending, changes);
    TakeDistinct(cfg.names, known, d.pending, changes);
    hide Take, DistinctItems, Proper, EntryIds, ItemIds;
    forall i | from <= i < |log| && (Met(cfg.names, known, d.pending, log[i]) || log[i] in changes)
      ensures Met(cfg.names, known, after, log[i])
    {
    }
  }

  lemma {:induction false} DiscoverMeets(cfg: Config, env: Env, log: seq<string>, known: seq<DeliveryEntry>, from: nat,
                                         page: nat, since: Option<nat>, d: Discovery)
    requires HonestFeed(cfg, env, log, page, since)
    requires SegmentMet(cfg, log, known, from, d)
    requires if d.lastSeqSeen.Some? then since == d.lastSeqSeen else Position(since) == from
    ensures SegmentMet(cfg, log, known, from, Discover(cfg, env, known, page, since, d))
    decreases cfg.maxPages - page
  {
    hide SegmentMet, HonestPage;
    if page < cfg.maxPages {
      match env.feed(page) {
        case FeedFault(retryable) =>
          SegmentIgnoresFault(cfg, log, known, from, d, Some(retryable));
        case Page(changes, lastSeq) =>
          PageMet(cfg, env, log, known, from, page, since, d);
          var taken := d.(pending := Take(cfg.names, known, d.pending, changes));
          if lastSeq.Some? && lastSeq != since && changes != [] {
            DiscoverMeets(cfg, env, log, known, from, page + 1, lastSeq, taken.(lastSeqSeen := lastSeq));
          }
      }
    }
  }

  lemma SegmentIgnoresFault(cfg: Config, log: seq<string>, known: seq<DeliveryEntry>, from: nat, d: Discovery, fault: Option<bool>)
    requires SegmentMet(cfg, log, known, from, d)
    ensures SegmentMet(cfg, log, known, from, d.(fault := fault))
  {
  }

  /** The items a cycle works on, and what the feed segment it saw says about them. */
  lemma PendingMeets(cfg: Config, env: Env, s: Sys)
    requires HonestFeed(cfg, env, s.log, 0, s.files.mem.lastSeq)
    requires Pending(cfg, env, s.files.mem).Some?
    requires Position(s.files.mem.lastSeq) <= |s.log|
    ensures var items := Pending(cfg, env, s.files.mem).value;
            SegmentMet(cfg, s.log, s.files.mem.entries, Position(s.files.mem.lastSeq),
                       Discovered(cfg, env, s.files.mem).(pending := items))
  {
    var known, from := s.files.mem.entries, Position(s.files.mem.lastSeq);
    DiscoverMeets(cfg, env, s.log, known, from, 0, s.files.mem.lastSeq, Discovery([], None, None));
    var d := Discovered(cfg, env, s.files.mem);
    if d.fault.Some? {
      var after := Take(cfg.names, known, d.pending, env.listing.paths);
      TakeCovers(cfg.names, known, d.pending, env.listing.paths);
      TakeDistinct(cfg.names, known, d.pending, env.listing.paths);
      hide Take, DistinctItems, Proper, EntryIds, ItemIds, Discover, HonestFeed;
      forall i | from <= i < |s.log| && Met(cfg.names, known, d.pending, s.log[i])
        ensures Met(cfg.names, known, after, s.log[i])
      {
      }
    } else {
      assert d.(pending := d.pending) == d;
      hide SegmentMet, Discover, HonestFeed;
    }
  }

  ghost predicate EffectProper(names: Names, e: Effect) {
    match e
    case Hand(it) => Bears(names, it.path, it.msgId)
    case Mark(entry) => Bears(names, entry.path, entry.msgId) && OneKind(entry)
    case MoveCursor(_) => true
  }

  ghost predicate PlanProper(names: Names, es: seq<Effect>) {
    forall e :: e in es ==> EffectProper(names, e)
  }

  lemma {:induction false} PathsConcat(a: seq<Effect>, b: seq<Effect>)
    ensures Paths(a + b) == Paths(a) + Paths(b)
    decreases |a|
  {
    if a == [] {
      assert a + b == b;
    } else {
      assert (a + b)[1..] == a[1..] + b;
      PathsConcat(a[1..], b);
    }
  }

  lemma {:induction false} SkipsCover(cfg: Config, env: Env, items: seq<Item>, i: nat)
    requires i <= |items| && Proper(cfg.names, items)
    ensures var es := SkipEffects(cfg, env, items, i);
            && PlanProper(cfg.names, es) && (forall e :: e in es ==> e.Mark?)
            && (forall j :: i <= j < |items| && SkipFor(cfg, env, items[j]).Some? ==> items[j].path in Paths(es))
    decreases |items| - i
  {
    hide Bears;
    if i < |items| {
      assert items[i] in items;
      SkipsCover(cfg, env, items, i + 1);
      var rest := SkipEffects(cfg, env, items, i + 1);
      var verdict := SkipFor(cfg, env, items[i]);
      hide SkipFor;
      if verdict.Some? {
        var first := SkipMark(env, items[i], i, verdict.value);
        assert ([first] + rest)[1..] == rest;
      }
    }
  }

  lemma {:induction false} HandsCover(names: Names, env: Env, ds: seq<Item>, k: nat)
    requires k <= |ds| && Proper(names, ds)
    ensures var es := HandEffects(env, ds, k);
            && PlanProper(names, es) && (forall e :: e in es ==> !e.MoveCursor?)
            && ((forall j :: k <= j < |ds| ==> !env.privateBeforeDeliver(j)) ==>
                  forall j :: k <= j < |ds| ==> ds[j].path in Paths(es))
    decreases |ds| - k
  {
    hide Bears, HandOver, Paths, EffectProper;
    if k < |ds| && !env.privateBeforeDeliver(k) {
      assert ds[k] in ds;
      HandsCover(names, env, ds, k + 1);
      HandOverCovers(names, env, ds[k], k);
      PathsConcat(HandOver(env, ds[k], k), HandEffects(env, ds, k + 1));
    }
  }

  lemma HandOverCovers(names: Names, env: Env, it: Item, k: nat)
    requires Bears(names, it.path, it.msgId)
    ensures var es := HandOver(env, it, k);
            PlanProper(names, es) && (forall e :: e in es ==> !e.MoveCursor?) && it.path in Paths(es)
  {
    hide Bears;
  }

  /** A plan without a private flip touches every item; its effects are well formed. */
  lemma PhasesCover(cfg: Config, env: Env, items: seq<Item>)
    requires Proper(cfg.names, items)
    ensures var es := PhaseEffects(cfg, env, items);
            && PlanProper(cfg.names, es) && (forall e :: e in es ==> !e.MoveCursor?)
            && (!FlipsPrivate(env, DeliveryOrder(cfg, env, items)) ==> forall it :: it in items ==> it.path in Paths(es))
  {
    var ds := DeliveryOrder(cfg, env, items);
    SortSorts(Filter(items, Deliverable(cfg, env)), CreatedAt(env));
    assert forall it :: it in ds <==> it in items && SkipFor(cfg, env, it).None?;
    SkipsCover(cfg, env, items, 0);
    HandsCover(cfg.names, env, ds, 0);
    var skips, hands := SkipEffects(cfg, env, items, 0), HandEffects(env, ds, 0);
    PathsConcat(skips, hands);
    hide SkipEffects, HandEffects, DeliveryOrder, SkipFor, Paths;
    if !FlipsPrivate(env, ds) {
      forall it | it in items ensures it.path in Paths(skips + hands) {
        var j :| 0 <= j < |items| && items[j] == it;
        if it in ds {
          var k :| 0 <= k < |ds| && ds[k] == it;
        }
      }
    }
  }

  // ---- performing it -------------------------------------------------------------------------

  /** The segment up to `n` is handled once the paths of `before` are. */
  ghost predicate Reached(names: Names, s: Sys, before: set<string>, n: nat) {
    CursorBehind(names, s.(handled := s.handled + before), Some(n))
  }

  ghost predicate PlanSound(names: Names, s: Sys, es: seq<Effect>, done: set<string>) {
    && PlanProper(names, es)
    && forall i :: 0 <= i < |es| && es[i].MoveCursor? ==> Reached(names, s, done + Paths(es[..i]), es[i].n)
  }

  lemma HandledGrows(names: Names, a: set<string>, b: set<string>, path: string)
    requires a <= b && Handled(names, a, path)
    ensures Handled(names, b, path)
  {
  }

  lemma GoodGrows(names: Names, s: Sys, more: set<string>, st: State)
    requires StateGood(names, s, st)
    ensures StateGood(names, s.(handled := s.handled + more), st)
  {
    var s' := s.(handled := s.handled + more);
    hide Handled;
    if st.lastSeq.Some? {
      forall i | 0 <= i < st.lastSeq.value && IsBoardPath(names, s.log[i]) ensures Handled(names, s'.handled, s.log[i]) {
        HandledGrows(names, s.handled, s'.handled, s.log[i]);
      }
    }
  }

  lemma SavedIsGood(names: Names, s: Sys, st: State, p: Persist)
    requires FilesOk(s.files) && DistinctIds(st.entries)
    requires StateGood(names, s, st) && StateGood(names, s, s.files.disk)
    ensures StateGood(names, s, Save(s.files, st, p).mem) && StateGood(names, s, Save(s.files, st, p).disk)
  {
    SaveKeepsTheBacklog(st.entries);
    hide Saved, CursorBehind, DistinctIds;
  }

  lemma MarkIsGood(cfg: Config, s: Sys, e: DeliveryEntry, p: Persist)
    requires Inv(cfg, s) && e.path in s.handled && EffectProper(cfg.names, Mark(e))
    ensures Inv(cfg, s.(files := Record(s.files, e, p)))
  {
    hide Saved, Handled, DistinctIds, Put, UnreadCount, AcksRecent;
    RecordKeepsOk(s.files, e, p);
    PutDistinct(s.files.mem.entries, e);
    SavedIsGood(cfg.names, s, s.files.mem.(entries := Put(s.files.mem.entries, e)), p);
  }

  lemma CursorIsGood(cfg: Config, s: Sys, n: nat, p: Persist)
    requires Inv(cfg, s) && CursorBehind(cfg.names, s, Some(n))
    ensures Inv(cfg, s.(files := SetLastSeq(s.files, n, p)))
  {
    hide Saved, Handled, UnreadCount, AcksRecent;
    SaveIsOk(s.files, s.files.mem.(lastSeq := Some(n)), p);
    SavedIsGood(cfg.names, s, s.files.mem.(lastSeq := Some(n)), p);
  }

  lemma EffectKeepsInv(cfg: Config, s: Sys, e: Effect, p: Persist)
    requires Inv(cfg, s) && EffectProper(cfg.names, e)
    requires e.MoveCursor? ==> CursorBehind(cfg.names, s, Some(e.n))
    ensures Inv(cfg, s.(files := BoardDelivery.Perform(s.files, e, p), handled := s.handled + Achieved(e, p)))
  {
    hide Record, SetLastSeq, FilesOk, StateGood, CursorBehind;
    GoodGrows(cfg.names, s, Achieved(e, p), s.files.mem);
    GoodGrows(cfg.names, s, Achieved(e, p), s.files.disk);
    var s' := s.(handled := s.handled + Achieved(e, p));
    match e {
      case Hand(_) =>
      case Mark(entry) => MarkIsGood(cfg, s', entry, p);
      case MoveCursor(n) =>
        assert s' == s;
        CursorIsGood(cfg, s, n, p);
    }
  }

  lemma {:induction false} ExecuteKeepsInv(cfg: Config, s: Sys, es: seq<Effect>, outcome: nat -> Persist, k: nat)
    requires Inv(cfg, s) && PlanSound(cfg.names, s, es, {})
    ensures Inv(cfg, s.(files := Execute(s.files, es, outcome, k), handled := s.handled + Touched(es, outcome, k)))
    decreases |es|
  {
    if es == [] {
      assert s.handled + {} == s.handled;
    } else {
      var e, rest := es[0], es[1..];
      assert e in es;
      if e.MoveCursor? {
        assert es[..0] == [] && s.handled + ({} + Paths(es[..0])) == s.handled;
      }
      EffectKeepsInv(cfg, s, e, outcome(k));
      var s' := s.(files := BoardDelivery.Perform(s.files, e, outcome(k)), handled := s.handled + Achieved(e, outcome(k)));
      if outcome(k) == Written {
        RestIsSound(cfg.names, s, es, s'.files);
        hide Inv, PlanSound, BoardDelivery.Perform, Achieved;
        ExecuteKeepsInv(cfg, s', rest, outcome, k + 1);
        assert s'.handled + Touched(rest, outcome, k + 1) == s.handled + Touched(es, outcome, k);
      } else {
        assert Achieved(e, outcome(k)) + {} == Achieved(e, outcome(k));
      }
    }
  }

  lemma RestIsSound(names: Names, s: Sys, es: seq<Effect>, files: Files)
    requires es != [] && PlanSound(names, s, es, {})
    ensures PlanSound(names, s.(files := files, handled := s.handled + PathOf(es[0])), es[1..], {})
  {
    var s' := s.(files := files, handled := s.handled + PathOf(es[0]));
    hide CursorBehind, PathOf, EffectProper;
    forall i | 0 <= i < |es| - 1 && es[1..][i].MoveCursor? ensures Reached(names, s', {} + Paths(es[1..][..i]), es[1..][i].n) {
      var before := es[..i + 1];
      assert before[1..] == es[1..][..i];
      assert s.handled + ({} + Paths(before)) == s'.handled + ({} + Paths(es[1..][..i]));
      assert Reached(names, s, {} + Paths(before), es[i + 1].n);
      SameHandled(names, s.(handled := s.handled + ({} + Paths(before))), files, es[i + 1].n);
    }
  }

  lemma SameHandled(names: Names, s: Sys, files: Files, n: nat)
    requires CursorBehind(names, s, Some(n))
    ensures CursorBehind(names, s.(files := files), Some(n))
  {
  }

  lemma PlanIsSound(cfg: Config, env: Env, s: Sys)
    requires Inv(cfg, s) && HonestFeed(cfg, env, s.log, 0, s.files.mem.lastSeq)
    ensures PlanSound(cfg.names, s, CyclePlan(cfg, env, s.files.mem), {})
  {
    hide CyclePlan, Pending, PhaseEffects, SegmentMet, Reached, HonestFeed, PlanProper, Paths, CursorEffect, Inv;
    var plan := CyclePlan(cfg, env, s.files.mem);
    if plan == [] {
      NothingIsSound(cfg.names, s);
    } else {
      var items := PlanParts(cfg, env, s.files.mem);
      var phases, last := PhaseEffects(cfg, env, items), CursorEffect(cfg, env, s.files.mem);
      InvSays(cfg, s);
      PendingMeets(cfg, env, s);
      ItemsAreProper(cfg, env, s, items);
      PhasesCover(cfg, env, items);
      LastIsProper(cfg, env, s.files.mem, phases);
      if last != [] {
        CursorIsReached(cfg, env, s, Paths(phases));
        assert (phases + last)[..|phases|] == phases;
      }
    }
  }

  lemma NothingIsSound(names: Names, s: Sys)
    ensures PlanSound(names, s, [], {})
  {
  }

  lemma InvSays(cfg: Config, s: Sys)
    requires Inv(cfg, s)
    ensures Position(s.files.mem.lastSeq) <= |s.log| && StateGood(cfg.names, s, s.files.mem)
  {
    hide FilesOk, EntriesHandled, Handled;
  }

  /** The phases over the items that were read, then the cursor if all of them were. */
  lemma PlanParts(cfg: Config, env: Env, m: State) returns (items: seq<Item>)
    requires CyclePlan(cfg, env, m) != []
    ensures Pending(cfg, env, m).Some? && items <= Pending(cfg, env, m).value
    ensures CyclePlan(cfg, env, m) == PhaseEffects(cfg, env, items) + CursorEffect(cfg, env, m)
    ensures CursorEffect(cfg, env, m) != [] ==>
              items == Pending(cfg, env, m).value && !FlipsPrivate(env, DeliveryOrder(cfg, env, items))
  {
    hide Pending, PhaseEffects, ReadUpTo, Discovered, DeliveryOrder, FlipsPrivate;
    var pending := Pending(cfg, env, m).value;
    items := pending[..ReadUpTo(env, pending, 0).0];
  }

  lemma ItemsAreProper(cfg: Config, env: Env, s: Sys, items: seq<Item>)
    requires Pending(cfg, env, s.files.mem).Some? && items <= Pending(cfg, env, s.files.mem).value
    requires SegmentMet(cfg, s.log, s.files.mem.entries, Position(s.files.mem.lastSeq),
                        Discovered(cfg, env, s.files.mem).(pending := Pending(cfg, env, s.files.mem).value))
    ensures Proper(cfg.names, items)
  {
    hide Pending, Discovered, DistinctItems, Met, Bears;
    assert forall it :: it in items ==> it in Pending(cfg, env, s.files.mem).value;
  }

  lemma LastIsProper(cfg: Config, env: Env, m: State, phases: seq<Effect>)
    requires PlanProper(cfg.names, phases) && forall e :: e in phases ==> !e.MoveCursor?
    ensures PlanProper(cfg.names, phases + CursorEffect(cfg, env, m))
    ensures forall i :: 0 <= i < |phases| ==> !(phases + CursorEffect(cfg, env, m))[i].MoveCursor?
    ensures CursorEffect(cfg, env, m) != [] ==>
              Discovered(cfg, env, m).lastSeqSeen.Some? && CursorEffect(cfg, env, m) == [MoveCursor(Discovered(cfg, env, m).lastSeqSeen.value)]
  {
    hide Discovered, Completes, Bears;
    forall i | 0 <= i < |phases| ensures !(phases + CursorEffect(cfg, env, m))[i].MoveCursor? {
      assert phases[i] in phases;
    }
  }

  /** The cursor moves behind what was retained already or is touched by the phases. */
  lemma CursorIsReached(cfg: Config, env: Env, s: Sys, before: set<string>)
    requires StateGood(cfg.names, s, s.files.mem) && Pending(cfg, env, s.files.mem).Some?
    requires Discovered(cfg, env, s.files.mem).lastSeqSeen.Some?
    requires SegmentMet(cfg, s.log, s.files.mem.entries, Position(s.files.mem.lastSeq),
                        Discovered(cfg, env, s.files.mem).(pending := Pending(cfg, env, s.files.mem).value))
    requires forall it :: it in Pending(cfg, env, s.files.mem).value ==> it.path in before
    ensures Reached(cfg.names, s, {} + before, Discovered(cfg, env, s.files.mem).lastSeqSeen.value)
  {
    hide Pending, Discovered, DistinctItems, Met, Handled, Proper, EntriesHandled;
    var n, from := Discovered(cfg, env, s.files.mem).lastSeqSeen.value, Position(s.files.mem.lastSeq);
    var handled := s.handled + ({} + before);
    forall i | 0 <= i < n && IsBoardPath(cfg.names, s.log[i]) ensures Handled(cfg.names, handled, s.log[i]) {
      if i < from {
        HandledGrows(cfg.names, s.handled, handled, s.log[i]);
      } else {
        MetIsHandled(cfg.names, s.files.mem.entries, Pending(cfg, env, s.files.mem).value, s.handled, handled, s.log[i]);
      }
    }
  }

  lemma MetIsHandled(names: Names, known: seq<DeliveryEntry>, items: seq<Item>, was: set<string>, handled: set<string>, path: string)
    requires IsBoardPath(names, path) && Met(names, known, items, path)
    requires EntriesHandled(names, was, known) && was <= handled
    requires Proper(names, items) && forall it :: it in items ==> it.path in handled
    ensures Handled(names, handled, path)
  {
  }

  lemma PrefixIsSound(names: Names, s: Sys, es: seq<Effect>, n: nat)
    requires PlanSound(names, s, es, {}) && n <= |es|
    ensures PlanSound(names, s, es[..n], {})
  {
    hide Reached, EffectProper;
    assert forall e :: e in es[..n] ==> e in es;
    forall i | 0 <= i < n && es[..n][i].MoveCursor? ensures Reached(names, s, {} + Paths(es[..n][..i]), es[..n][i].n) {
      assert es[..n][..i] == es[..i];
    }
  }

  lemma SaveEntries(f: Files, st: State, p: Persist, names: Names, handled: set<string>)
    requires DistinctIds(st.entries)
    requires EntriesHandled(names, handled, st.entries) && EntriesHandled(names, handled, f.disk.entries)
    ensures var g := Save(f, st, p);
            EntriesHandled(names, handled, g.mem.entries) && EntriesHandled(names, handled, g.disk.entries)
  {
    SaveKeepsTheBacklog(st.entries);
    hide Saved, DistinctIds, AcksRecent, UnreadCount;
  }

  lemma AckEntries(f: Files, id: string, now: int, p: Persist, names: Names, handled: set<string>)
    requires FilesOk(f) && EntriesHandled(names, handled, f.mem.entries) && EntriesHandled(names, handled, f.disk.entries)
    ensures var g := Ack(f, id, now, p);
            && EntriesHandled(names, handled, g.mem.entries) && EntriesHandled(names, handled, g.disk.entries)
            && g.mem.lastSeq == f.mem.lastSeq && (g.disk.lastSeq == f.disk.lastSeq || g.disk.lastSeq == f.mem.lastSeq)
  {
    var i := IndexOf(f.mem.entries, id);
    if i.Some? {
      var es := f.mem.entries;
      hide DistinctIds, EntriesHandled, Saved;
      SaveEntries(f, f.mem.(entries := es[i.value := es[i.value].(ackedAt := Some(now))]), p, names, handled);
    }
  }

  lemma CollectEntries(f: Files, now: int, p: Persist, names: Names, handled: set<string>)
    requires FilesOk(f) && EntriesHandled(names, handled, f.mem.entries) && EntriesHandled(names, handled, f.disk.entries)
    ensures var g := Collect(f, now, p);
            && EntriesHandled(names, handled, g.mem.entries) && EntriesHandled(names, handled, g.disk.entries)
            && g.mem.lastSeq == f.mem.lastSeq && (g.disk.lastSeq == f.disk.lastSeq || g.disk.lastSeq == f.mem.lastSeq)
  {
    var kept := Filter(f.mem.entries, SettledWithin(now));
    FilterDistinct(f.mem.entries, SettledWithin(now));
    SaveEntries(f, f.mem.(entries := kept), p, names, handled);
    hide Saved, DistinctIds, AcksRecent, UnreadCount;
  }

  lemma StepKeepsInv(cfg: Config, s: Sys, e: Event)
    requires Inv(cfg, s) && HonestEvent(cfg, s, e)
    ensures Inv(cfg, Apply(cfg, s, e))
  {
    hide CyclePlan, Execute, Touched, FilesOk, Ack, Collect, EntriesHandled, PlanSound;
    match e {
      case Publish(_) =>
      case Cycle(env) =>
        PlanIsSound(cfg, env, s);
        ExecuteKeepsInv(cfg, s, CyclePlan(cfg, env, s.files.mem), env.outcome, 0);
      case CrashDuring(env, n) =>
        var plan := CyclePlan(cfg, env, s.files.mem);
        PlanIsSound(cfg, env, s);
        PrefixIsSound(cfg.names, s, plan, Min(n, |plan|));
        ExecuteKeepsInv(cfg, s, plan[..Min(n, |plan|)], env.outcome, 0);
        RestartKeepsInv(cfg, Perform(s, plan[..Min(n, |plan|)], env));
      case Restart => RestartKeepsInv(cfg, s);
      case AckMessage(id, now, p) =>
        AckKeepsOk(s.files, id, now, p);
        AckEntries(s.files, id, now, p, cfg.names, s.handled);
      case CollectOld(now, p) =>
        CollectKeepsOk(s.files, now, p);
        CollectEntries(s.files, now, p, cfg.names, s.handled);
    }
  }

  lemma RestartKeepsInv(cfg: Config, s: Sys)
    requires Inv(cfg, s)
    ensures Inv(cfg, Restarted(s))
  {
    hide StateOk;
  }

  lemma {:induction false} RunKeepsInv(cfg: Config, s: Sys, events: seq<Event>)
    requires Inv(cfg, s) && HonestRun(cfg, s, events)
    ensures Inv(cfg, Run(cfg, s, events))
    decreases |events|
  {
    hide Inv, Apply, HonestEvent;
    if events != [] {
      StepKeepsInv(cfg, s, events[0]);
      RunKeepsInv(cfg, Apply(cfg, s, events[0]), events[1..]);
    }
  }

  // ---- the theorems -----------------------------------------------------------------------------

  /** Some board path at or before the stored cursor, in memory or on disk, is number `i` of the feed. */
  ghost predicate Passed(cfg: Config, s: Sys, i: nat) {
    && i < |s.log| && IsBoardPath(cfg.names, s.log[i])
    && (i < Position(s.files.mem.lastSeq) || i < Position(s.files.disk.lastSeq))
  }

  /**
   * Whatever crashes, faults, pauses and private flips a run contains: every board path at or
   * before the stored cursor, in memory and on disk, was handed to the callback or recorded as a
   * skip, or another board path carrying the same message id was.
   */
  lemma CursorNeverPassesAMessage(cfg: Config, events: seq<Event>, i: nat)
    requires HonestRun(cfg, Init, events) && Passed(cfg, Run(cfg, Init, events), i)
    ensures var s := Run(cfg, Init, events);
            || s.log[i] in s.handled
            || exists q :: q in s.handled && q != s.log[i] && IsBoardPath(cfg.names, q)
                           && cfg.names.idOf(q) == cfg.names.idOf(s.log[i])
  {
    RunKeepsInv(cfg, Init, events);
    var s := Run(cfg, Init, events);
    assert Handled(cfg.names, s.handled, s.log[i]);
  }

  // ---- paths instead of messages ------------------------------------------------------------------

  /** Every path a cycle is shown, in a page of the feed or in the listing, is one of `ps`. */
  ghost predicate ShowsOnly(env: Env, ps: iset<string>) {
    && (forall page: nat, p :: env.feed(page).Page? && p in env.feed(page).changes ==> p in ps)
    && (env.listing.Listed? ==> forall p :: p in env.listing.paths ==> p in ps)
  }

  ghost predicate EventWithin(e: Event, ps: iset<string>) {
    match e
    case Publish(path) => path in ps
    case Cycle(env) => ShowsOnly(env, ps)
    case CrashDuring(env, _) => ShowsOnly(env, ps)
    case _ => true
  }

  /** All paths that occur in the run: published, listed in a page, or listed by the fallback. */
  ghost predicate RunWithin(events: seq<Event>, ps: iset<string>) {
    forall e :: e in events ==> EventWithin(e, ps)
  }

  ghost predicate HandledWithin(s: Sys, ps: iset<string>) {
    (forall p :: p in s.handled ==> p in ps) && (forall p :: p in s.log ==> p in ps)
  }

  ghost predicate ItemsWithin(items: seq<Item>, ps: iset<string>) {
    forall it :: it in items ==> it.path in ps
  }

  lemma {:induction false} TakeWithin(names: Names, known: seq<DeliveryEntry>, pending: seq<Item>, paths: seq<string>, ps: iset<string>)
    requires ItemsWithin(pending, ps) && forall p :: p in paths ==> p in ps
    ensures ItemsWithin(Take(names, known, pending, paths), ps)
  {
    if paths != [] {
      assert paths[|paths| - 1] in paths;
      TakeWithin(names, known, pending, paths[..|paths| - 1], ps);
    }
  }

  lemma {:induction false} DiscoverWithin(cfg: Config, env: Env, known: seq<DeliveryEntry>, page: nat, since: Option<nat>, d: Discovery, ps: iset<string>)
    requires ShowsOnly(env, ps) && ItemsWithin(d.pending, ps)
    ensures ItemsWithin(Discover(cfg, env, known, page, since, d).pending, ps)
    decreases cfg.maxPages - page
  {
    if page < cfg.maxPages {
      match env.feed(page) {
        case FeedFault(_) =>
        case Page(changes, lastSeq) =>
          TakeWithin(cfg.names, known, d.pending, changes, ps);
          if lastSeq.Some? && lastSeq != since && changes != [] {
            var taken := d.(pending := Take(cfg.names, known, d.pending, changes), lastSeqSeen := lastSeq);
            DiscoverWithin(cfg, env, known, page + 1, lastSeq, taken, ps);
          }
      }
    }
  }

  lemma PendingWithin(cfg: Config, env: Env, s: State, ps: iset<string>)
    requires ShowsOnly(env, ps) && Pending(cfg, env, s).Some?
    ensures ItemsWithin(Pending(cfg, env, s).value, ps)
  {
    hide Discover, Take;
    DiscoverWithin(cfg, env, s.entries, 0, s.lastSeq, Discovery([], None, None), ps);
    var d := Discovered(cfg, env, s);
    if d.fault.Some? {
      TakeWithin(cfg.names, s.entries, d.pending, env.listing.paths, ps);
    }
  }

  lemma {:induction false} SkipsWithin(cfg: Config, env: Env, items: seq<Item>, i: nat, ps: iset<string>)
    requires i <= |items| && ItemsWithin(items, ps)
    ensures forall p :: p in Paths(SkipEffects(cfg, env, items, i)) ==> p in ps
    decreases |items| - i
  {
    if i < |items| {
      assert items[i] in items;
      SkipsWithin(cfg, env, items, i + 1, ps);
      var verdict := SkipFor(cfg, env, items[i]);
      hide SkipFor;
      if verdict.Some? {
        var first := SkipMark(env, items[i], i, verdict.value);
        assert ([first] + SkipEffects(cfg, env, items, i + 1))[1..] == SkipEffects(cfg, env, items, i + 1);
      }
    }
  }

  lemma {:induction false} HandsWithin(env: Env, ds: seq<Item>, k: nat, ps: iset<string>)
    requires k <= |ds| && ItemsWithin(ds, ps)
    ensures forall p :: p in Paths(HandEffects(env, ds, k)) ==> p in ps
    decreases |ds| - k
  {
    if k < |ds| && !env.privateBeforeDeliver(k) {
      assert ds[k] in ds;
      HandsWithin(env, ds, k + 1, ps);
      PathsConcat(HandOver(env, ds[k], k), HandEffects(env, ds, k + 1));
      var first := HandOver(env, ds[k], k);
      assert first[1..][1..] == [];
      assert Paths(first) == {ds[k].path} + ({ds[k].path} + Paths([]));
    }
  }

  lemma PlanWithin(cfg: Config, env: Env, s: State, ps: iset<string>)
    requires ShowsOnly(env, ps)
    ensures forall p :: p in Paths(CyclePlan(cfg, env, s)) ==> p in ps
  {
    var plan := CyclePlan(cfg, env, s);
    if plan != [] {
      PendingWithin(cfg, env, s, ps);
      var pending := Pending(cfg, env, s).value;
      var items := pending[..ReadUpTo(env, pending, 0).0];
      var skips, hands := SkipEffects(cfg, env, items, 0), HandEffects(env, DeliveryOrder(cfg, env, items), 0);
      var last := CursorEffect(cfg, env, s);
      assert plan == skips + hands + last;
      hide CyclePlan, Pending, ReadUpTo, SkipEffects, HandEffects, Paths, SkipFor, Completes, Discovered, CursorEffect;
      assert forall it :: it in items ==> it in pending;
      SortSorts(Filter(items, Deliverable(cfg, env)), CreatedAt(env));
      SkipsWithin(cfg, env, items, 0, ps);
      HandsWithin(env, DeliveryOrder(cfg, env, items), 0, ps);
      PathsConcat(skips, hands);
      PathsConcat(skips + hands, last);
      CursorHasNoPath(cfg, env, s);
    }
  }

  lemma CursorHasNoPath(cfg: Config, env: Env, s: State)
    ensures Paths(CursorEffect(cfg, env, s)) == {}
  {
    hide Completes, Discovered;
    var es := CursorEffect(cfg, env, s);
    if es != [] {
      assert es[1..] == [];
    }
  }

  lemma {:induction false} TouchedAreInPaths(es: seq<Effect>, n: nat, outcome: nat -> Persist, k: nat)
    requires n <= |es|
    ensures Touched(es[..n], outcome, k) <= Paths(es)
    decreases n
  {
    if n > 0 {
      TouchedAreInPaths(es[1..], n - 1, outcome, k + 1);
      assert es[..n][1..] == es[1..][..n - 1];
    }
  }

  lemma StepWithin(cfg: Config, s: Sys, e: Event, ps: iset<string>)
    requires HandledWithin(s, ps) && EventWithin(e, ps)
    ensures HandledWithin(Apply(cfg, s, e), ps)
  {
    hide ShowsOnly, CyclePlan, Execute, Touched, Paths;
    if e.Cycle? || e.CrashDuring? {
      var plan := CyclePlan(cfg, e.env, s.files.mem);
      PlanWithin(cfg, e.env, s.files.mem, ps);
      TouchedAreInPaths(plan, |plan|, e.env.outcome, 0);
      assert plan[..|plan|] == plan;
      if e.CrashDuring? {
        TouchedAreInPaths(plan, Min(e.effects, |plan|), e.env.outcome, 0);
      }
    }
  }

  lemma {:induction false} RunStaysWithin(cfg: Config, s: Sys, events: seq<Event>, ps: iset<string>)
    requires HandledWithin(s, ps) && RunWithin(events, ps)
    ensures HandledWithin(Run(cfg, s, events), ps)
    decreases |events|
  {
    hide HandledWithin, EventWithin, Apply;
    if events != [] {
      assert events[0] in events;
      StepWithin(cfg, s, events[0], ps);
      RunStaysWithin(cfg, Apply(cfg, s, events[0]), events[1..], ps);
    }
  }

  ghost predicate OnePathPerId(names: Names, ps: iset<string>) {
    forall a, b :: a in ps && b in ps && IsBoardPath(names, a) && IsBoardPath(names, b) && names.idOf(a) == names.idOf(b) ==> a == b
  }

  /** In a run no two of whose paths share an id, every board path the cursor passed was handled. */
  lemma UniqueIdsHandleEveryPath(cfg: Config, events: seq<Event>, ps: iset<string>, i: nat)
    requires RunWithin(events, ps) && OnePathPerId(cfg.names, ps)
    requires HonestRun(cfg, Init, events) && Passed(cfg, Run(cfg, Init, events), i)
    ensures var s := Run(cfg, Init, events); s.log[i] in s.handled
  {
    hide Run, HonestRun, RunWithin;
    RunStaysWithin(cfg, Init, events, ps);
    CursorNeverPassesAMessage(cfg, events, i);
    var s := Run(cfg, Init, events);
    assert s.log[i] in s.log;
  }

  /** Every run among these paths hands over or skips every board path its cursor passes. */
  ghost predicate HandlesEveryPath(cfg: Config, ps: iset<string>) {
    forall events: seq<Event>, i: nat ::
      RunWithin(events, ps) && HonestRun(cfg, Init, events) && Passed(cfg, Run(cfg, Init, events), i) ==>
        Run(cfg, Init, events).log[i] in Run(cfg, Init, events).handled
  }

  lemma WithinMore(events: seq<Event>, some: iset<string>, ps: iset<string>)
    requires RunWithin(events, some) && forall p :: p in some ==> p in ps
    ensures RunWithin(events, ps)
  {
    forall e | e in events ensures EventWithin(e, ps) {
      assert EventWithin(e, some);
    }
  }

  /** Of any set of paths that claim holds exactly when no two board paths of the set share an id. */
  lemma EveryPathIsHandledIff(cfg: Config, ps: iset<string>)
    requires cfg.maxPages > 0 && cfg.backlogPauseAt > 0
    ensures HandlesEveryPath(cfg, ps) <==> OnePathPerId(cfg.names, ps)
  {
    hide Run, HonestRun;
    if OnePathPerId(cfg.names, ps) {
      forall events: seq<Event>, i: nat | RunWithin(events, ps) && HonestRun(cfg, Init, events) && Passed(cfg, Run(cfg, Init, events), i)
        ensures Run(cfg, Init, events).log[i] in Run(cfg, Init, events).handled
      {
        UniqueIdsHandleEveryPath(cfg, events, ps, i);
      }
    } else {
      var a, b :| a in ps && b in ps && IsBoardPath(cfg.names, a) && IsBoardPath(cfg.names, b)
                  && cfg.names.idOf(a) == cfg.names.idOf(b) && a != b;
      var events := TwinPathIsPassedUnhandled(cfg, a, b);
      WithinMore(events, iset{a, b}, ps);
      assert Passed(cfg, Run(cfg, Init, events), 1);
    }
  }

  function BothOnOnePage(a: string, b: string): nat -> Fetch {
    (page: nat) => Page([a, b], Some(2))
  }

  function TwinsEnv(a: string, b: string): Env {
    Env(BothOnOnePage(a, b), ListingThrew, (p: string) => Refused(ReadMissing), false,
        (k: nat) => false, (k: nat) => false, (k: nat) => 0, (k: nat) => 0, (k: nat) => Written)
  }

  /**
   * Message ids are not path ids: whenever two board paths carry one message id, a
   * clean cycle moves the cursor past both and handles only the first.
   */
  lemma TwinPathIsPassedUnhandled(cfg: Config, a: string, b: string) returns (events: seq<Event>)
    requires a != b && IsBoardPath(cfg.names, a) && IsBoardPath(cfg.names, b) && cfg.names.idOf(a) == cfg.names.idOf(b)
    requires cfg.maxPages > 0 && cfg.backlogPauseAt > 0
    ensures HonestRun(cfg, Init, events) && RunWithin(events, iset{a, b})
    ensures var s := Run(cfg, Init, events);
            s.log == [a, b] && s.files.disk.lastSeq == Some(2) && b !in s.handled
  {
    hide CyclePlan, SetLastSeq, Record, HonestFeed, Perform, HonestRun, Run;
    var env := TwinsEnv(a, b);
    events := [Publish(a), Publish(b), Cycle(env)];
    var s1, s2 := Apply(cfg, Init, Publish(a)), Apply(cfg, Apply(cfg, Init, Publish(a)), Publish(b));
    assert s2.log == [a, b];
    TwinsRun(cfg, a, b, s2);
    ThreeEvents(cfg, Init, events);
    TwinsWithin(a, b);
  }

  lemma ThreeEvents(cfg: Config, s: Sys, es: seq<Event>)
    requires |es| == 3
    ensures var s1, s2 := Apply(cfg, s, es[0]), Apply(cfg, Apply(cfg, s, es[0]), es[1]);
            && Run(cfg, s, es) == Apply(cfg, s2, es[2])
            && (HonestEvent(cfg, s, es[0]) && HonestEvent(cfg, s1, es[1]) && HonestEvent(cfg, s2, es[2]) ==> HonestRun(cfg, s, es))
  {
    hide Apply, HonestEvent;
    var s2 := Apply(cfg, Apply(cfg, s, es[0]), es[1]);
    var s3 := Apply(cfg, s2, es[2]);
    assert es[1..][1..] == [es[2]] && [es[2]][1..] == [] && es[1..][0] == es[1];
    assert HonestRun(cfg, s3, []) && Run(cfg, s3, []) == s3;
    assert Run(cfg, s2, [es[2]]) == s3;
    assert HonestEvent(cfg, s2, es[2]) ==> HonestRun(cfg, s2, [es[2]]);
    assert HonestRun(cfg, s2, [es[2]]) && HonestEvent(cfg, Apply(cfg, s, es[0]), es[1]) ==> HonestRun(cfg, Apply(cfg, s, es[0]), es[1..]);
  }

  lemma TwinsWithin(a: string, b: string)
    ensures RunWithin([Publish(a), Publish(b), Cycle(TwinsEnv(a, b))], iset{a, b})
  {
  }

  lemma TwinsPlan(cfg: Config, a: string, b: string)
    requires a != b && IsBoardPath(cfg.names, a) && IsBoardPath(cfg.names, b) && cfg.names.idOf(a) == cfg.names.idOf(b)
    requires cfg.maxPages > 0 && cfg.backlogPauseAt > 0
    ensures var it := Item(a, cfg.names.idOf(a).value, cfg.names.channelOf(a).value);
            CyclePlan(cfg, TwinsEnv(a, b), State([], None)) == [SkipMark(TwinsEnv(a, b), it, 0, Missing), MoveCursor(2)]
  {
    var env, s := TwinsEnv(a, b), State([], None);
    var it := Item(a, cfg.names.idOf(a).value, cfg.names.channelOf(a).value);
    TwinsTaken(cfg, a, b);
    var d := Discovered(cfg, env, s);
    assert Discover(cfg, env, [], 1, Some(2), Discovery([it], Some(2), None)) == Discovery([it], Some(2), None) by {
      hide Take;
    }
    assert d == Discovery([it], Some(2), None);
    assert ReadUpTo(env, [it], 0) == (1, AllRead);
    assert SkipEffects(cfg, env, [it], 0) == [SkipMark(env, it, 0, Missing)];
    var kept := Filter([it], Deliverable(cfg, env));
    assert kept == [];
    assert [it][..1] == [it];
    hide Discover, Take, SkipEffects, Filter, ReadUpTo;
  }

  lemma TwinsRun(cfg: Config, a: string, b: string, s: Sys)
    requires a != b && IsBoardPath(cfg.names, a) && IsBoardPath(cfg.names, b) && cfg.names.idOf(a) == cfg.names.idOf(b)
    requires cfg.maxPages > 0 && cfg.backlogPauseAt > 0
    requires s == Init.(log := [a, b])
    ensures HonestFeed(cfg, TwinsEnv(a, b), s.log, 0, None)
    ensures var s' := Perform(s, CyclePlan(cfg, TwinsEnv(a, b), s.files.mem), TwinsEnv(a, b));
            b !in s'.handled && s'.files.disk.lastSeq == Some(2) && s'.log == s.log
  {
    var env := TwinsEnv(a, b);
    TwinsHonest(cfg, a, b, s.log);
    TwinsPlan(cfg, a, b);
    hide CyclePlan, Saved, HonestFeed;
    var plan := CyclePlan(cfg, env, s.files.mem);
    var rest := plan[1..];
    assert rest == [MoveCursor(2)] && rest[1..] == [];
    assert Touched(rest, env.outcome, 1) == {};
    assert Touched(plan, env.outcome, 0) == {a};
    var f1 := BoardDelivery.Perform(s.files, plan[0], Written);
    assert Execute(f1, rest, env.outcome, 1) == BoardDelivery.Perform(f1, MoveCursor(2), Written);
  }

  lemma TwinsTaken(cfg: Config, a: string, b: string)
    requires a != b && IsBoardPath(cfg.names, a) && IsBoardPath(cfg.names, b) && cfg.names.idOf(a) == cfg.names.idOf(b)
    ensures Take(cfg.names, [], [], [a, b]) == [Item(a, cfg.names.idOf(a).value, cfg.names.channelOf(a).value)]
    ensures var it := Item(a, cfg.names.idOf(a).value, cfg.names.channelOf(a).value);
            Take(cfg.names, [], [it], [a, b]) == [it]
  {
    assert [a, b][..1] == [a] && [a][..0] == [];
    var it := Item(a, cfg.names.idOf(a).value, cfg.names.channelOf(a).value);
    assert Take(cfg.names, [], [], [a]) == [it];
    assert it in [it];
    assert Take(cfg.names, [], [it], [a]) == [it];
  }

  lemma TwinsHonest(cfg: Config, a: string, b: string, log: seq<string>)
    requires log == [a, b]
    ensures HonestFeed(cfg, TwinsEnv(a, b), log, 0, None)
  {
    TwinsHonestFrom(cfg, a, b, log, 1);
  }

  lemma {:induction false} TwinsHonestFrom(cfg: Config, a: string, b: string, log: seq<string>, page: nat)
    requires log == [a, b]
    ensures HonestFeed(cfg, TwinsEnv(a, b), log, page, Some(2))
    decreases cfg.maxPages - page
  {
    if page < cfg.maxPages { TwinsHonestFrom(cfg, a, b, log, page + 1); }
  }

  /** The delivery state never grows past its bound, and keeps its acknowledgments recent. */
  lemma StateStaysBounded(cfg: Config, events: seq<Event>)
    requires HonestRun(cfg, Init, events)
    ensures var s := Run(cfg, Init, events); FilesOk(s.files)
  {
    RunKeepsInv(cfg, Init, events);
  }

  // ---- pauses and duplicates --------------------------------------------------------------------

  lemma {:induction false} ExecuteKeepsCursor(f: Files, es: seq<Effect>, outcome: nat -> Persist, k: nat)
    requires forall e :: e in es ==> !e.MoveCursor?
    ensures var g := Execute(f, es, outcome, k);
            g.mem.lastSeq == f.mem.lastSeq && (g.disk.lastSeq == f.disk.lastSeq || g.disk.lastSeq == f.mem.lastSeq)
    decreases |es|
  {
    hide Saved;
    if es != [] {
      assert es[0] in es;
      ExecuteKeepsCursor(BoardDelivery.Perform(f, es[0], outcome(k)), es[1..], outcome, k + 1);
    }
  }

  lemma PlanHasNoCursorUnless(cfg: Config, env: Env, s: State)
    requires !Completes(cfg, env, s)
    ensures forall e :: e in CyclePlan(cfg, env, s) ==> !e.MoveCursor?
  {
    hide Completes;
    if CyclePlan(cfg, env, s) != [] {
      var items := Pending(cfg, env, s).value[..ReadUpTo(env, Pending(cfg, env, s).value, 0).0];
      NoCursorInPhases(cfg, env, items);
      hide PhaseEffects, Pending;
    }
  }

  lemma NoCursorInPhases(cfg: Config, env: Env, items: seq<Item>)
    ensures forall e :: e in PhaseEffects(cfg, env, items) ==> !e.MoveCursor?
  {
    NoCursorInSkips(cfg, env, items, 0);
    NoCursorInHands(env, DeliveryOrder(cfg, env, items), 0);
    hide SkipEffects, HandEffects, DeliveryOrder;
  }

  lemma {:induction false} NoCursorInSkips(cfg: Config, env: Env, items: seq<Item>, i: nat)
    requires i <= |items|
    ensures forall e :: e in SkipEffects(cfg, env, items, i) ==> !e.MoveCursor?
    decreases |items| - i
  {
    if i < |items| { NoCursorInSkips(cfg, env, items, i + 1); }
  }

  lemma {:induction false} NoCursorInHands(env: Env, ds: seq<Item>, k: nat)
    requires k <= |ds|
    ensures forall e :: e in HandEffects(env, ds, k) ==> !e.MoveCursor?
    decreases |ds| - k
  {
    if k < |ds| { NoCursorInHands(env, ds, k + 1); }
  }

  /** A pause, a private flip or an exception before the end of the cycle never moves the cursor. */
  lemma PausedCycleKeepsCursor(cfg: Config, env: Env, f: Files)
    requires !Completes(cfg, env, f.mem)
    ensures var g := Execute(f, CyclePlan(cfg, env, f.mem), env.outcome, 0);
            g.mem.lastSeq == f.mem.lastSeq && (g.disk.lastSeq == f.disk.lastSeq || g.disk.lastSeq == f.mem.lastSeq)
  {
    PlanHasNoCursorUnless(cfg, env, f.mem);
    ExecuteKeepsCursor(f, CyclePlan(cfg, env, f.mem), env.outcome, 0);
  }

  // Which messages the callback sees.

  lemma {:induction false} SkipsHandNothing(cfg: Config, env: Env, items: seq<Item>, i: nat, tail: seq<Effect>,
                                            outcome: nat -> Persist, at: nat) returns (k: nat, run: bool)
    requires i <= |items|
    ensures HandedBy(SkipEffects(cfg, env, items, i) + tail, outcome, at) == if run then HandedBy(tail, outcome, k) else []
    ensures (forall x: nat :: outcome(x) == Written) ==> run
    decreases |items| - i
  {
    if i == |items| {
      k, run := at, true;
      assert SkipEffects(cfg, env, items, i) + tail == tail;
    } else {
      var verdict := SkipFor(cfg, env, items[i]);
      if verdict.None? {
        k, run := SkipsHandNothing(cfg, env, items, i + 1, tail, outcome, at);
      } else {
        var rest := SkipEffects(cfg, env, items, i + 1);
        var es := SkipEffects(cfg, env, items, i);
        assert (es + tail)[1..] == rest + tail;
        if outcome(at) == Written {
          k, run := SkipsHandNothing(cfg, env, items, i + 1, tail, outcome, at + 1);
        } else {
          k, run := at, false;
        }
      }
    }
  }

  /** Before a tail that hands over nothing, what a cycle hands over is a prefix of its order, cut where it was stopped or failed. */
  lemma PhasesHand(cfg: Config, env: Env, items: seq<Item>, tail: seq<Effect>, outcome: nat -> Persist) returns (m: nat)
    requires HandsNothing(tail)
    ensures var ds := DeliveryOrder(cfg, env, items);
            && m <= |ds| && HandedBy(PhaseEffects(cfg, env, items) + tail, outcome, 0) == ds[..m]
            && (forall j :: 0 <= j < m ==> !env.privateBeforeDeliver(j))
            && ((forall x: nat :: outcome(x) == Written) && m < |ds| ==> env.privateBeforeDeliver(m))
  {
    hide DeliveryOrder, SkipEffects, HandEffects, HandedBy, HandsNothing;
    var ds := DeliveryOrder(cfg, env, items);
    var hands := HandEffects(env, ds, 0);
    assert PhaseEffects(cfg, env, items) + tail == SkipEffects(cfg, env, items, 0) + (hands + tail);
    var k, run := SkipsHandNothing(cfg, env, items, 0, hands + tail, outcome, 0);
    m := HandsThenCursor(env, ds, 0, tail, outcome, k);
    if !run { m := 0; }
  }

  ghost predicate HandsNothing(es: seq<Effect>) {
    forall e :: e in es ==> !e.Hand?
  }

  lemma OneHandOver(env: Env, it: Item, k: nat, rest: seq<Effect>, outcome: nat -> Persist, at: nat)
    ensures HandedBy(HandOver(env, it, k) + rest, outcome, at) ==
            [it] + if outcome(at) == Written && outcome(at + 1) == Written then HandedBy(rest, outcome, at + 2) else []
  {
    var mark := HandOver(env, it, k)[1];
    assert HandOver(env, it, k) + rest == [Hand(it)] + ([mark] + rest);
    hide HandedBy;
    FirstHanded(Hand(it), [mark] + rest, outcome, at);
    FirstHanded(mark, rest, outcome, at + 1);
  }

  lemma {:induction false} HandsThenCursor(env: Env, ds: seq<Item>, k: nat, tail: seq<Effect>, outcome: nat -> Persist, at: nat)
    returns (m: nat)
    requires k <= |ds| && HandsNothing(tail)
    ensures k <= m <= |ds| && HandedBy(HandEffects(env, ds, k) + tail, outcome, at) == ds[k..m]
    ensures forall j :: k <= j < m ==> !env.privateBeforeDeliver(j)
    ensures (forall x: nat :: outcome(x) == Written) ==> m == |ds| || env.privateBeforeDeliver(m)
    decreases |ds| - k
  {
    hide HandedBy, HandsNothing, HandOver;
    if k == |ds| || env.privateBeforeDeliver(k) {
      m := k;
      assert HandEffects(env, ds, k) + tail == tail;
      NothingHanded(tail, outcome, at);
    } else {
      var rest := HandEffects(env, ds, k + 1);
      assert HandEffects(env, ds, k) + tail == HandOver(env, ds[k], k) + (rest + tail);
      OneHandOver(env, ds[k], k, rest + tail, outcome, at);
      if outcome(at) == Written && outcome(at + 1) == Written {
        m := HandsThenCursor(env, ds, k + 1, tail, outcome, at + 2);
        assert ds[k..m] == [ds[k]] + ds[k + 1..m];
      } else {
        m := k + 1;
      }
    }
  }

  lemma {:induction false} NothingHanded(es: seq<Effect>, outcome: nat -> Persist, k: nat)
    requires HandsNothing(es)
    ensures HandedBy(es, outcome, k) == []
    decreases |es|
  {
    if es != [] {
      assert es[0] in es;
      NothingHanded(es[1..], outcome, k + 1);
    }
  }

  /**
   * Whatever fails on the way, the callback sees messages with no retained entry, each once in the
   * cycle, oldest first.
   */
  lemma CallbackSeesNewMessagesInOrder(cfg: Config, env: Env, f: Files)
    ensures var handed := HandedBy(CyclePlan(cfg, env, f.mem), env.outcome, 0);
            && Sorted(handed, CreatedAt(env))
            && (forall it :: it in handed ==> it.msgId !in EntryIds(f.mem.entries))
            && (forall i, j :: 0 <= i < j < |handed| ==> handed[i].msgId != handed[j].msgId)
  {
    var plan := CyclePlan(cfg, env, f.mem);
    if plan == [] {
      NothingHanded(plan, env.outcome, 0);
    } else {
      var pending := Pending(cfg, env, f.mem).value;
      var items := pending[..ReadUpTo(env, pending, 0).0];
      PendingIsUnknown(cfg, env, f.mem);
      OrderKeepsItems(cfg, env, f.mem.entries, items);
      hide Pending, ReadUpTo, DeliveryOrder, PhaseEffects, HandedBy, EntryIds, Sorted, Completes, Discovered;
      var m := PhasesHand(cfg, env, items, CursorEffect(cfg, env, f.mem), env.outcome);
      PrefixKeeps(f.mem.entries, DeliveryOrder(cfg, env, items), m, CreatedAt(env));
    }
  }

  lemma PrefixKeeps(known: seq<DeliveryEntry>, ds: seq<Item>, m: nat, key: Item -> int)
    requires m <= |ds| && DistinctItems(known, ds) && Sorted(ds, key)
    ensures DistinctItems(known, ds[..m]) && Sorted(ds[..m], key)
  {
    assert forall it :: it in ds[..m] ==> it in ds;
  }

  lemma OrderKeepsItems(cfg: Config, env: Env, known: seq<DeliveryEntry>, items: seq<Item>)
    requires DistinctItems(known, items)
    ensures Sorted(DeliveryOrder(cfg, env, items), CreatedAt(env))
    ensures DistinctItems(known, DeliveryOrder(cfg, env, items))
  {
    var kept := Filter(items, Deliverable(cfg, env));
    KeptDistinct(known, items, Deliverable(cfg, env));
    SortSorts(kept, CreatedAt(env));
    SortedDistinct(known, kept, CreatedAt(env));
  }

  lemma ItemsTail(known: seq<DeliveryEntry>, items: seq<Item>)
    requires items != [] && DistinctItems(known, items)
    ensures DistinctItems(known, items[1..])
    ensures items[0].msgId !in EntryIds(known) && forall it :: it in items[1..] ==> it.msgId != items[0].msgId
  {
    assert items[0] in items && forall it :: it in items[1..] ==> it in items;
  }

  lemma ItemsCons(known: seq<DeliveryEntry>, it: Item, items: seq<Item>)
    requires DistinctItems(known, items)
    requires it.msgId !in EntryIds(known) && forall x :: x in items ==> x.msgId != it.msgId
    ensures DistinctItems(known, [it] + items)
  {
  }

  lemma {:induction false} KeptDistinct(known: seq<DeliveryEntry>, items: seq<Item>, keep: Item -> bool)
    requires DistinctItems(known, items)
    ensures DistinctItems(known, Filter(items, keep))
  {
    hide DistinctItems, EntryIds;
    if items == [] {
    } else {
      ItemsTail(known, items);
      KeptDistinct(known, items[1..], keep);
      if keep(items[0]) {
        ItemsCons(known, items[0], Filter(items[1..], keep));
      }
    }
  }

  lemma {:induction false} InsertedDistinct(known: seq<DeliveryEntry>, sorted: seq<Item>, it: Item, key: Item -> int)
    requires DistinctItems(known, sorted) && it.msgId !in EntryIds(known) && it.msgId !in ItemIds(sorted)
    ensures DistinctItems(known, Insert(sorted, it, key))
  {
    if sorted == [] || key(sorted[|sorted| - 1]) <= key(it) {
      assert forall i :: 0 <= i < |sorted| ==> sorted[i] in sorted;
    } else {
      var init, last := sorted[..|sorted| - 1], sorted[|sorted| - 1];
      assert last in sorted && forall x :: x in init ==> x in sorted;
      InsertedDistinct(known, init, it, key);
      InsertMembers(init, it, key);
      var r := Insert(init, it, key);
      forall i | 0 <= i < |r| ensures r[i].msgId != last.msgId {
        assert r[i] in r;
      }
    }
  }

  lemma {:induction false} SortedDistinct(known: seq<DeliveryEntry>, items: seq<Item>, key: Item -> int)
    requires DistinctItems(known, items)
    ensures DistinctItems(known, SortBy(items, key))
  {
    if items != [] {
      var init, last := items[..|items| - 1], items[|items| - 1];
      assert last in items && forall x :: x in init ==> x in items;
      SortedDistinct(known, init, key);
      SortSorts(init, key);
      forall x | x in SortBy(init, key) ensures x.msgId != last.msgId {
        assert x in init;
      }
      InsertedDistinct(known, SortBy(init, key), last, key);
    }
  }

  lemma {:induction false} DiscoverDistinct(cfg: Config, env: Env, known: seq<DeliveryEntry>, page: nat, since: Option<nat>, d: Discovery)
    requires DistinctItems(known, d.pending)
    ensures DistinctItems(known, Discover(cfg, env, known, page, since, d).pending)
    decreases cfg.maxPages - page
  {
    hide DistinctItems, Take;
    if page < cfg.maxPages && env.feed(page).Page? {
      var changes, lastSeq := env.feed(page).changes, env.feed(page).lastSeq;
      TakeDistinct(cfg.names, known, d.pending, changes);
      DiscoverDistinct(cfg, env, known, page + 1, lastSeq,
                       d.(pending := Take(cfg.names, known, d.pending, changes), lastSeqSeen := lastSeq));
    }
  }

  lemma PendingIsUnknown(cfg: Config, env: Env, s: State)
    requires Pending(cfg, env, s).Some?
    ensures DistinctItems(s.entries, Pending(cfg, env, s).value)
  {
    DiscoverDistinct(cfg, env, s.entries, 0, s.lastSeq, Discovery([], None, None));
    var d := Discovered(cfg, env, s);
    if d.fault.Some? {
      TakeDistinct(cfg.names, s.entries, d.pending, env.listing.paths);
    }
  }
}
