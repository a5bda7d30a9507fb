/**
 * What a polling cycle asks of the feed, where discovery stops, when a cycle completes, and where it then
 * leaves the cursor; said of the answers alone.
 */
module BoardDiscovery {
  import opened Common
  import opened BoardState
  import opened BoardDelivery
  import BoardSafety

  // ---- the pages ---------------------------------------------------------------------------------------

  /** The cursor page `k` is asked with: the stored one, then that of the page before. */
  function AskedWith(env: Env, start: Option<nat>, k: nat): Option<nat> {
    if k == 0 then start else if env.feed(k - 1).Page? then env.feed(k - 1).lastSeq else None
  }

  /** The page brought the cursor further. */
  ghost predicate Advances(env: Env, start: Option<nat>, k: nat) {
    env.feed(k).Page? && env.feed(k).lastSeq.Some? && env.feed(k).lastSeq != AskedWith(env, start, k)
  }

  /** It did, and listed something, so the next page is asked for. */
  ghost predicate GoesOn(env: Env, start: Option<nat>, k: nat) {
    Advances(env, start, k) && env.feed(k).changes != []
  }

  function SeenBefore(env: Env, k: nat, from: nat, seen: Option<nat>): Option<nat> {
    if k > from && env.feed(k - 1).Page? then env.feed(k - 1).lastSeq else seen
  }

  lemma {:induction false} DiscoverEnds(cfg: Config, env: Env, known: seq<DeliveryEntry>, start: Option<nat>, page: nat, d: Discovery)
    returns (n: nat)
    requires page <= cfg.maxPages && d.fault.None?
    ensures page <= n <= cfg.maxPages && forall k: nat :: page <= k < n ==> GoesOn(env, start, k)
    ensures var r := Discover(cfg, env, known, page, AskedWith(env, start, page), d);
            if n == cfg.maxPages then r.fault == None && r.lastSeqSeen == SeenBefore(env, n, page, d.lastSeqSeen)
            else
              && !GoesOn(env, start, n)
              && r.fault == (if env.feed(n).FeedFault? then Some(env.feed(n).retryable) else None)
              && r.lastSeqSeen == (if Advances(env, start, n) then env.feed(n).lastSeq else SeenBefore(env, n, page, d.lastSeqSeen))
    decreases cfg.maxPages - page
  {
    hide Take;
    n := page;
    if page < cfg.maxPages && GoesOn(env, start, page) {
      var taken := d.(pending := Take(cfg.names, known, d.pending, env.feed(page).changes), lastSeqSeen := env.feed(page).lastSeq);
      n := DiscoverEnds(cfg, env, known, start, page + 1, taken);
      assert GoesOn(env, start, n - 1);
    }
  }

  /**
   * Pages are asked for while they bring the cursor further and list something, up to the limit. A fault is
   * noted exactly when the page behind these fails, and the cursor seen is that of the last page that moved it.
   */
  lemma DiscoveryStopsWhere(cfg: Config, env: Env, s: State) returns (n: nat)
    ensures n <= cfg.maxPages && forall k: nat :: k < n ==> GoesOn(env, s.lastSeq, k)
    ensures n < cfg.maxPages ==> !GoesOn(env, s.lastSeq, n)
    ensures var d := Discovered(cfg, env, s);
            && (d.fault.Some? <==> n < cfg.maxPages && env.feed(n).FeedFault?)
            && (d.fault.Some? ==> d.fault.value == env.feed(n).retryable)
            && d.lastSeqSeen == (if n < cfg.maxPages && Advances(env, s.lastSeq, n) then env.feed(n).lastSeq
                                 else if n > 0 && env.feed(n - 1).Page? then env.feed(n - 1).lastSeq else None)
  {
    n := DiscoverEnds(cfg, env, s.entries, s.lastSeq, 0, Discovery([], None, None));
    hide GoesOn, Advances, Discover;
  }

  // ---- the items ------------------------------------------------------------------------------------------

  /** The path of a message neither retained nor pending yet. */
  ghost predicate NewTo(names: Names, known: seq<DeliveryEntry>, pending: seq<Item>, path: string) {
    && IsBoardPath(names, path)
    && (forall e :: e in known ==> e.msgId != names.idOf(path).value)
    && (forall it :: it in pending ==> it.msgId != names.idOf(path).value)
  }

  /** Each new message is taken once, under the path that names it first. */
  lemma {:induction false} TakesNewPaths(names: Names, known: seq<DeliveryEntry>, pending: seq<Item>, paths: seq<string>, it: Item)
    ensures it in Take(names, known, pending, paths) <==>
              || it in pending
              || exists k :: 0 <= k < |paths| && TakenAt(names, known, pending, paths, it, k)
    decreases |paths|
  {
    hide IsBoardPath;
    if paths != [] {
      var n := |paths| - 1;
      TakesNewPaths(names, known, pending, paths[..n], it);
      assert forall k :: 0 <= k < n ==> (TakenAt(names, known, pending, paths[..n], it, k) <==> TakenAt(names, known, pending, paths, it, k));
      LastTaken(names, known, pending, paths, it);
      hide TakenAt, Take;
    }
  }

  ghost predicate TakenAt(names: Names, known: seq<DeliveryEntry>, pending: seq<Item>, paths: seq<string>, it: Item, k: nat)
    requires k < |paths|
  {
    && NewTo(names, known, pending, paths[k])
    && it == Item(paths[k], names.idOf(paths[k]).value, names.channelOf(paths[k]).value)
    && forall m :: 0 <= m < k ==> !(IsBoardPath(names, paths[m]) && names.idOf(paths[m]) == names.idOf(paths[k]))
  }

  lemma LastTaken(names: Names, known: seq<DeliveryEntry>, pending: seq<Item>, paths: seq<string>, it: Item)
    requires paths != []
    ensures var n := |paths| - 1;
            it in Take(names, known, pending, paths) <==>
              it in Take(names, known, pending, paths[..n]) || TakenAt(names, known, pending, paths, it, n)
  {
    var n := |paths| - 1;
    if IsBoardPath(names, paths[n]) {
      var id := names.idOf(paths[n]).value;
      IdsTaken(names, known, pending, paths[..n], id);
    }
  }

  lemma {:induction false} IdsTaken(names: Names, known: seq<DeliveryEntry>, pending: seq<Item>, paths: seq<string>, id: string)
    ensures id in EntryIds(known) || id in ItemIds(Take(names, known, pending, paths)) <==>
              || (exists e :: e in known && e.msgId == id) || (exists it :: it in pending && it.msgId == id)
              || (exists m :: 0 <= m < |paths| && IsBoardPath(names, paths[m]) && names.idOf(paths[m]).value == id)
    decreases |paths|
  {
    if paths != [] {
      var n := |paths| - 1;
      IdsTaken(names, known, pending, paths[..n], id);
      assert forall m :: 0 <= m < n ==> paths[..n][m] == paths[m];
    }
  }

  // ---- completing ---------------------------------------------------------------------------------------------

  lemma {:induction false} AllReadIff(env: Env, pending: seq<Item>, i: nat)
    requires i <= |pending|
    ensures ReadUpTo(env, pending, i).1.AllRead? <==> forall k :: i <= k < |pending| ==> !env.privateBeforeRead(k) && WasRead(env, pending[k])
    decreases |pending| - i
  {
    if i < |pending| && !env.privateBeforeRead(i) && WasRead(env, pending[i]) { AllReadIff(env, pending, i + 1); }
  }

  /**
   * A cycle goes through, but for its writes, exactly when the gate is open at every look, the backlog is
   * below the limit, discovery found its items, and every one of them could be read.
   */
  lemma CompletesIff(cfg: Config, env: Env, s: State)
    ensures Completes(cfg, env, s) <==>
              && !env.privateAtStart && UnreadCount(s.entries) < cfg.backlogPauseAt
              && Pending(cfg, env, s).Some?
              && var items := Pending(cfg, env, s).value;
                 && (forall k :: 0 <= k < |items| ==> !env.privateBeforeRead(k) && WasRead(env, items[k]))
                 && (forall k :: 0 <= k < |DeliveryOrder(cfg, env, items)| ==> !env.privateBeforeDeliver(k))
  {
    hide Pending, WasRead, DeliveryOrder, ReadUpTo, UnreadCount;
    if Pending(cfg, env, s).Some? { AllReadIff(env, Pending(cfg, env, s).value, 0); }
  }

  /** Items are found unless the feed fails in a way worth retrying, or fails otherwise and the listing does too. */
  lemma PendingIff(cfg: Config, env: Env, s: State) returns (n: nat)
    ensures n <= cfg.maxPages && forall k: nat :: k < n ==> GoesOn(env, s.lastSeq, k)
    ensures Pending(cfg, env, s).None? <==>
              n < cfg.maxPages && env.feed(n).FeedFault? && (env.feed(n).retryable || env.listing.ListingThrew?)
  {
    n := DiscoveryStopsWhere(cfg, env, s);
    hide Discovered, Take;
  }

  lemma {:induction false} ExecuteToTheEnd(f: Files, es: seq<Effect>, last: seq<Effect>, outcome: nat -> Persist, at: nat)
    requires forall k: nat :: outcome(k) == Written
    ensures Execute(f, es + last, outcome, at) == Execute(Execute(f, es, outcome, at), last, outcome, at + |es|)
    decreases |es|
  {
    hide BoardDelivery.Perform;
    if es == [] {
      assert es + last == last;
    } else {
      assert (es + last)[1..] == es[1..] + last;
      ExecuteToTheEnd(BoardDelivery.Perform(f, es[0], outcome(at)), es[1..], last, outcome, at + 1);
    }
  }

  /** A cycle that goes through, every write succeeding, leaves the cursor of the last page that moved it, in memory and on disk. */
  lemma CompletedCycleMovesTheCursor(cfg: Config, env: Env, f: Files)
    requires Completes(cfg, env, f.mem) && forall k: nat :: env.outcome(k) == Written
    ensures var seen := Discovered(cfg, env, f.mem).lastSeqSeen;
            var g := Execute(f, CyclePlan(cfg, env, f.mem), env.outcome, 0);
            if seen.Some? then g.mem.lastSeq == seen && g.disk.lastSeq == seen else g.mem.lastSeq == f.mem.lastSeq
  {
    hide PhaseEffects, DeliveryOrder, Discovered, Saved, ReadUpTo, Pending;
    var items := Pending(cfg, env, f.mem).value;
    var phases := PhaseEffects(cfg, env, items[..ReadUpTo(env, items, 0).0]);
    BoardSafety.NoCursorInPhases(cfg, env, items[..ReadUpTo(env, items, 0).0]);
    BoardSafety.ExecuteKeepsCursor(f, phases, env.outcome, 0);
    var last := CursorEffect(cfg, env, f.mem);
    ExecuteToTheEnd(f, phases, last, env.outcome, 0);
    hide Completes;
    LastMoves(Execute(f, phases, env.outcome, 0), Discovered(cfg, env, f.mem).lastSeqSeen, env.outcome, |phases|);
  }

  lemma LastMoves(f: Files, seen: Option<nat>, outcome: nat -> Persist, at: nat)
    requires outcome(at) == Written
    ensures var g := Execute(f, if seen.Some? then [MoveCursor(seen.value)] else [], outcome, at);
            if seen.Some? then g.mem.lastSeq == seen && g.disk.lastSeq == seen else g == f
  {
    hide Saved;
    if seen.Some? {
      assert [MoveCursor(seen.value)][1..] == [];
      assert Execute(f, [MoveCursor(seen.value)], outcome, at) ==
             Execute(BoardDelivery.Perform(f, MoveCursor(seen.value), Written), [], outcome, at + 1);
    }
  }

  // ---- what a cycle attempts --------------------------------------------------------------------------------

  lemma {:induction false} ReadsUpTo(env: Env, pending: seq<Item>, i: nat)
    requires i <= |pending|
    ensures var (n, stop) := ReadUpTo(env, pending, i);
            && (forall k :: i <= k < n ==> !env.privateBeforeRead(k) && WasRead(env, pending[k]))
            && (n < |pending| ==> env.privateBeforeRead(n) || !WasRead(env, pending[n]))
            && (stop.Aborted? <==> n < |pending| && !env.privateBeforeRead(n) && env.readOf(pending[n].path).ReadThrew?)
    decreases |pending| - i
  {
    if i < |pending| && !env.privateBeforeRead(i) && WasRead(env, pending[i]) { ReadsUpTo(env, pending, i + 1); }
  }

  /**
   * Every write succeeding, a cycle attempts nothing when it is private or over its backlog at the start, finds
   * no messages, or a read throws. Otherwise it reads up to the first message it cannot read or may not, and of
   * those it hands over the ones it delivers, oldest first, up to the first look at a closed gate.
   */
  lemma WhatACycleHands(cfg: Config, env: Env, s: State) returns (n: nat, m: nat)
    requires forall k: nat :: env.outcome(k) == Written
    ensures var plan := CyclePlan(cfg, env, s);
            if env.privateAtStart || UnreadCount(s.entries) >= cfg.backlogPauseAt || Pending(cfg, env, s).None? then plan == []
            else
              var items := Pending(cfg, env, s).value;
              && n <= |items| && (forall k :: 0 <= k < n ==> !env.privateBeforeRead(k) && WasRead(env, items[k]))
              && (n < |items| ==> env.privateBeforeRead(n) || !WasRead(env, items[n]))
              && if n < |items| && !env.privateBeforeRead(n) && env.readOf(items[n].path).ReadThrew? then plan == []
                 else
                   var ds := DeliveryOrder(cfg, env, items[..n]);
                   && m <= |ds| && HandedBy(plan, env.outcome, 0) == ds[..m]
                   && (forall j :: 0 <= j < m ==> !env.privateBeforeDeliver(j)) && (m < |ds| ==> env.privateBeforeDeliver(m))
  {
    hide Pending, WasRead, DeliveryOrder, UnreadCount, PhaseEffects, HandedBy, Completes;
    n, m := 0, 0;
    if Pending(cfg, env, s).Some? {
      var items := Pending(cfg, env, s).value;
      ReadsUpTo(env, items, 0);
      n := ReadUpTo(env, items, 0).0;
      hide ReadUpTo;
      m := BoardSafety.PhasesHand(cfg, env, items[..n], CursorEffect(cfg, env, s), env.outcome);
    }
  }
}
