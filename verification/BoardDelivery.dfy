/**
 * One delivery cycle of the board poller: page the changes feed, fall back to a bounded listing
 * when the feed is broken, read, skip or deliver, and move the stored cursor last.
 *
 * `CyclePlan` is the list of durable effects a cycle attempts, in order; `Execute` performs a
 * plan until one effect fails. The cycle in its own loops is proved to do exactly that.
 */
module BoardDelivery {
  import opened Common
  import opened BoardState

  /** The path predicates of the board: channel and message id of a well-formed path. */
  datatype Names = Names(channelOf: string -> Option<string>, idOf: string -> Option<string>)

  datatype Item = Item(path: string, msgId: string, channel: string)

  datatype Fetch = Page(changes: seq<string>, lastSeq: Option<nat>) | FeedFault(retryable: bool)

  datatype Listing = Listed(paths: seq<string>, truncated: bool) | ListingThrew

  datatype ReadReason = ReadExpired | ReadMissing | OutOfChannel | BadRequest | ReadUnavailable | OtherReason

  /** `created` stands for the text the messages are ordered by. */
  datatype Reading =
    | Message(from: string, to: string, created: int, body: string)
    | Refused(reason: ReadReason)
    | ReadThrew

  /**
   * Everything one cycle reads from outside: the answer to each page request, the private gate at
   * each place it is consulted, each read, the clock, and how the k-th durable effect ends.
   */
  datatype Env = Env(
    feed: nat -> Fetch,
    listing: Listing,
    readOf: string -> Reading,
    privateAtStart: bool,
    privateBeforeRead: nat -> bool,
    privateBeforeDeliver: nat -> bool,
    skipTime: nat -> int,
    deliverTime: nat -> int,
    outcome: nat -> Persist)

  datatype Config = Config(names: Names, recipient: Option<string>, maxPages: nat, backlogPauseAt: nat)

  datatype Pause = Backlog | Private | Unavailable

  // ---- discovery ------------------------------------------------------------------

  function ItemIds(items: seq<Item>): set<string> {
    set it | it in items :: it.msgId
  }

  predicate IsBoardPath(names: Names, path: string) {
    names.channelOf(path).Some? && names.idOf(path).Some?
  }

  /** Board paths whose message id is neither retained nor already pending, in order. */
  function Take(names: Names, known: seq<DeliveryEntry>, pending: seq<Item>, paths: seq<string>): seq<Item> {
    if paths == [] then pending
    else
      var before, path := Take(names, known, pending, paths[..|paths| - 1]), paths[|paths| - 1];
      if !IsBoardPath(names, path) then before
      else
        var id := names.idOf(path).value;
        if id in EntryIds(known) || id in ItemIds(before) then before
        else before + [Item(path, id, names.channelOf(path).value)]
  }

  datatype Discovery = Discovery(pending: seq<Item>, lastSeqSeen: Option<nat>, fault: Option<bool>)

  function Discover(cfg: Config, env: Env, known: seq<DeliveryEntry>, page: nat, since: Option<nat>, d: Discovery): Discovery
    decreases cfg.maxPages - page
  {
    if page >= cfg.maxPages then d
    else
      match env.feed(page)
      case FeedFault(retryable) => d.(fault := Some(retryable))
      case Page(changes, lastSeq) =>
        var taken := d.(pending := Take(cfg.names, known, d.pending, changes));
        if lastSeq.None? || lastSeq == since then taken
        else if changes == [] then taken.(lastSeqSeen := lastSeq)
        else Discover(cfg, env, known, page + 1, lastSeq, taken.(lastSeqSeen := lastSeq))
  }

  function Discovered(cfg: Config, env: Env, s: State): Discovery {
    Discover(cfg, env, s.entries, 0, s.lastSeq, Discovery([], None, None))
  }

  /** The items of this cycle; none when discovery itself pauses the cycle. */
  function Pending(cfg: Config, env: Env, s: State): Option<seq<Item>> {
    var d := Discovered(cfg, env, s);
    if d.fault.None? then Some(d.pending)
    else if d.fault.value || env.listing.ListingThrew? then None
    else Some(Take(cfg.names, s.entries, d.pending, env.listing.paths))
  }

  // ---- reading, skipping, delivering ---------------------------------------------------

  datatype Stop = AllRead | PausedAt(pause: Pause) | Aborted

  function ReadUpTo(env: Env, pending: seq<Item>, i: nat): (r: (nat, Stop))
    requires i <= |pending|
    ensures i <= r.0 <= |pending| && (r.1.AllRead? ==> r.0 == |pending|)
    decreases |pending| - i
  {
    if i == |pending| then (i, AllRead)
    else if env.privateBeforeRead(i) then (i, PausedAt(Private))
    else
      match env.readOf(pending[i].path)
      case ReadThrew => (i, Aborted)
      case Refused(ReadUnavailable) => (i, PausedAt(Unavailable))
      case _ => ReadUpTo(env, pending, i + 1)
  }

  function SkipFor(cfg: Config, env: Env, it: Item): Option<SkipReason> {
    match env.readOf(it.path)
    case ReadThrew => None
    case Message(_, to, _, _) =>
      if cfg.recipient.Some? && to != cfg.recipient.value then Some(Unauthorized) else None
    case Refused(reason) =>
      match reason
      case ReadExpired => Some(Expired)
      case ReadMissing => Some(Missing)
      case OutOfChannel => Some(Unauthorized)
      case BadRequest => Some(Unauthorized)
      case _ => Some(MalformedMessage)
  }

  datatype Effect =
    | Hand(item: Item)
    | Mark(entry: DeliveryEntry)
    | MoveCursor(n: nat)

  function SkipMark(env: Env, it: Item, i: nat, reason: SkipReason): Effect {
    Mark(SkippedEntry(it.msgId, it.path, it.channel, reason, env.skipTime(i)))
  }

  /** The skips among `items`, from item `i` on. */
  function SkipEffects(cfg: Config, env: Env, items: seq<Item>, i: nat): seq<Effect>
    requires i <= |items|
    decreases |items| - i
  {
    if i == |items| then []
    else
      match SkipFor(cfg, env, items[i])
      case None => SkipEffects(cfg, env, items, i + 1)
      case Some(reason) => [SkipMark(env, items[i], i, reason)] + SkipEffects(cfg, env, items, i + 1)
  }

  function Deliverable(cfg: Config, env: Env): Item -> bool {
    (it: Item) => SkipFor(cfg, env, it).None?
  }

  function CreatedAt(env: Env): Item -> int {
    (it: Item) => if env.readOf(it.path).Message? then env.readOf(it.path).created else 0
  }

  /** Oldest first, whatever order the server listed them in. */
  function DeliveryOrder(cfg: Config, env: Env, items: seq<Item>): seq<Item> {
    SortBy(Filter(items, Deliverable(cfg, env)), CreatedAt(env))
  }

  function HandOver(env: Env, it: Item, k: nat): seq<Effect> {
    [Hand(it), Mark(Delivered(it.msgId, it.path, it.channel, env.deliverTime(k)))]
  }

  function HandEffects(env: Env, ds: seq<Item>, k: nat): seq<Effect>
    requires k <= |ds|
    decreases |ds| - k
  {
    if k == |ds| || env.privateBeforeDeliver(k) then []
    else HandOver(env, ds[k], k) + HandEffects(env, ds, k + 1)
  }

  lemma HandsFrom(env: Env, ds: seq<Item>, k: nat, rest: seq<Effect>)
    requires k <= |ds|
    ensures if k == |ds| || env.privateBeforeDeliver(k) then HandEffects(env, ds, k) + rest == rest
            else HandEffects(env, ds, k) + rest ==
                   [Hand(ds[k])] + ([Mark(Delivered(ds[k].msgId, ds[k].path, ds[k].channel, env.deliverTime(k)))] + (HandEffects(env, ds, k + 1) + rest))
  {
  }

  predicate FlipsPrivate(env: Env, ds: seq<Item>) {
    exists k :: 0 <= k < |ds| && env.privateBeforeDeliver(k)
  }

  function AtStart(cfg: Config, env: Env, s: State): Option<Pause> {
    if env.privateAtStart then Some(Private)
    else if UnreadCount(s.entries) >= cfg.backlogPauseAt then Some(Backlog)
    else None
  }

  function PhaseEffects(cfg: Config, env: Env, items: seq<Item>): seq<Effect> {
    SkipEffects(cfg, env, items, 0) + HandEffects(env, DeliveryOrder(cfg, env, items), 0)
  }

  /** Whether the cycle reaches its end, if no effect fails. */
  predicate Completes(cfg: Config, env: Env, s: State) {
    && AtStart(cfg, env, s).None?
    && var pending := Pending(cfg, env, s);
       && pending.Some?
       && ReadUpTo(env, pending.value, 0).1.AllRead?
       && !FlipsPrivate(env, DeliveryOrder(cfg, env, pending.value))
  }

  function CursorEffect(cfg: Config, env: Env, s: State): seq<Effect> {
    var seen := Discovered(cfg, env, s).lastSeqSeen;
    if Completes(cfg, env, s) && seen.Some? then [MoveCursor(seen.value)] else []
  }

  function CyclePlan(cfg: Config, env: Env, s: State): seq<Effect> {
    var pending := Pending(cfg, env, s);
    if AtStart(cfg, env, s).Some? || pending.None? then []
    else
      var read := ReadUpTo(env, pending.value, 0);
      if read.1.Aborted? then []
      else PhaseEffects(cfg, env, pending.value[..read.0]) + CursorEffect(cfg, env, s)
  }

  // ---- performing a plan -----------------------------------------------------------------

  function Perform(f: Files, e: Effect, p: Persist): Files {
    match e
    case Hand(_) => f
    case Mark(entry) => Record(f, entry, p)
    case MoveCursor(n) => SetLastSeq(f, n, p)
  }

  /** Effects in order, up to and including the first that fails; `k` numbers them. */
  function Execute(f: Files, es: seq<Effect>, outcome: nat -> Persist, k: nat): Files
    decreases |es|
  {
    if es == [] then f
    else
      var after := Perform(f, es[0], outcome(k));
      if outcome(k) == Written then Execute(after, es[1..], outcome, k + 1) else after
  }

  /** The messages given to the callback on the way. */
  function HandedBy(es: seq<Effect>, outcome: nat -> Persist, k: nat): seq<Item>
    decreases |es|
  {
    if es == [] then []
    else (if es[0].Hand? then [es[0].item] else [])
         + (if outcome(k) == Written then HandedBy(es[1..], outcome, k + 1) else [])
  }

  lemma FirstHanded(e: Effect, rest: seq<Effect>, outcome: nat -> Persist, k: nat)
    ensures HandedBy([e] + rest, outcome, k) ==
            (if e.Hand? then [e.item] else []) + (if outcome(k) == Written then HandedBy(rest, outcome, k + 1) else [])
  {
    assert ([e] + rest)[1..] == rest;
  }

  lemma FirstEffect(f: Files, e: Effect, rest: seq<Effect>, outcome: nat -> Persist, k: nat)
    ensures var after := Perform(f, e, outcome(k));
            Execute(f, [e] + rest, outcome, k) ==
              if outcome(k) == Written then Execute(after, rest, outcome, k + 1) else Execute(after, [], outcome, k + 1)
    ensures HandedBy([e] + rest, outcome, k) ==
            (if e.Hand? then [e.item] else []) + HandedBy(if outcome(k) == Written then rest else [], outcome, k + 1)
  {
    hide Perform;
    assert ([e] + rest)[1..] == rest;
  }

  // ---- who gets a message ----------------------------------------------------------------------

  /** The path was read as a message, and it is addressed to us when we have a name. */
  ghost predicate ForUs(cfg: Config, env: Env, path: string) {
    env.readOf(path).Message? && (cfg.recipient.Some? ==> env.readOf(path).to == cfg.recipient.value)
  }

  /** A skip says why the message was not for the callback; what could not be read at all is no skip. */
  ghost predicate RightReason(cfg: Config, env: Env, path: string, reason: SkipReason) {
    var r := env.readOf(path);
    && !r.ReadThrew? && r != Refused(ReadUnavailable)
    && (reason == Expired <==> r == Refused(ReadExpired))
    && (reason == Missing <==> r == Refused(ReadMissing))
    && (reason == Unauthorized <==>
          r == Refused(OutOfChannel) || r == Refused(BadRequest) || (r.Message? && !ForUs(cfg, env, path)))
    && (reason == MalformedMessage <==> r == Refused(OtherReason))
  }

  ghost predicate RightEntry(cfg: Config, env: Env, e: DeliveryEntry) {
    if e.skip.Some? then RightReason(cfg, env, e.path, e.skip.value) else ForUs(cfg, env, e.path)
  }

  ghost predicate RightEffect(cfg: Config, env: Env, e: Effect) {
    match e
    case Hand(it) => ForUs(cfg, env, it.path)
    case Mark(entry) => RightEntry(cfg, env, entry) && OneKind(entry) && entry.ackedAt.None?
    case MoveCursor(_) => true
  }

  ghost predicate WasRead(env: Env, it: Item) {
    !env.readOf(it.path).ReadThrew? && env.readOf(it.path) != Refused(ReadUnavailable)
  }

  lemma {:induction false} ReadUpToReads(env: Env, pending: seq<Item>, i: nat)
    requires i <= |pending| && forall k :: 0 <= k < i ==> WasRead(env, pending[k])
    ensures forall it :: it in pending[..ReadUpTo(env, pending, i).0] ==> WasRead(env, it)
    decreases |pending| - i
  {
    if i < |pending| && !env.privateBeforeRead(i) && WasRead(env, pending[i]) {
      ReadUpToReads(env, pending, i + 1);
    }
  }

  /** A message that was read is skipped, with the right reason, or for us. */
  lemma SkippedOrForUs(cfg: Config, env: Env, it: Item)
    requires WasRead(env, it)
    ensures SkipFor(cfg, env, it).None? <==> ForUs(cfg, env, it.path)
    ensures SkipFor(cfg, env, it).Some? ==> RightReason(cfg, env, it.path, SkipFor(cfg, env, it).value)
  {
  }

  /** Of what was read exactly the messages for us are delivered. */
  lemma OrderIsForUs(cfg: Config, env: Env, items: seq<Item>)
    requires forall it :: it in items ==> WasRead(env, it)
    ensures forall it :: it in DeliveryOrder(cfg, env, items) <==> it in items && ForUs(cfg, env, it.path)
  {
    hide SkipFor, ForUs, WasRead, SortBy;
    SortSorts(Filter(items, Deliverable(cfg, env)), CreatedAt(env));
    forall it | it in items ensures SkipFor(cfg, env, it).None? <==> ForUs(cfg, env, it.path) {
      SkippedOrForUs(cfg, env, it);
    }
  }

  lemma {:induction false} SkipsAreRight(cfg: Config, env: Env, items: seq<Item>, i: nat)
    requires i <= |items| && forall it :: it in items ==> WasRead(env, it)
    ensures forall e :: e in SkipEffects(cfg, env, items, i) ==> RightEffect(cfg, env, e)
    decreases |items| - i
  {
    hide SkipFor, ForUs, WasRead, RightReason;
    if i < |items| {
      assert items[i] in items;
      SkippedOrForUs(cfg, env, items[i]);
      SkipsAreRight(cfg, env, items, i + 1);
    }
  }

  lemma {:induction false} HandsAreRight(cfg: Config, env: Env, ds: seq<Item>, k: nat)
    requires k <= |ds| && forall it :: it in ds ==> ForUs(cfg, env, it.path)
    ensures forall e :: e in HandEffects(env, ds, k) ==> RightEffect(cfg, env, e)
    decreases |ds| - k
  {
    hide ForUs;
    if k < |ds| {
      assert ds[k] in ds;
      HandsAreRight(cfg, env, ds, k + 1);
    }
  }

  /**
   * Whatever a cycle attempts, it hands over only messages read as addressed to us, and each mark it
   * writes says what its reading calls for.
   */
  lemma CycleIsRight(cfg: Config, env: Env, s: State)
    ensures forall e :: e in CyclePlan(cfg, env, s) ==> RightEffect(cfg, env, e)
  {
    hide Pending, SkipEffects, HandEffects, DeliveryOrder, WasRead, RightEntry, ForUs, Completes, Discovered;
    var pending := Pending(cfg, env, s);
    if pending.Some? {
      var items := pending.value[..ReadUpTo(env, pending.value, 0).0];
      ReadUpToReads(env, pending.value, 0);
      OrderIsForUs(cfg, env, items);
      SkipsAreRight(cfg, env, items, 0);
      HandsAreRight(cfg, env, DeliveryOrder(cfg, env, items), 0);
      hide ReadUpTo;
    }
  }

  lemma {:induction false} HandedAreHands(es: seq<Effect>, outcome: nat -> Persist, k: nat)
    ensures forall it :: it in HandedBy(es, outcome, k) ==> Hand(it) in es
    decreases |es|
  {
    if es != [] {
      HandedAreHands(es[1..], outcome, k + 1);
      assert forall e :: e in es[1..] ==> e in es;
    }
  }

  /** When every pending item was read, those for us are exactly the ones to deliver. */
  lemma CompletedReads(cfg: Config, env: Env, s: State)
    requires Completes(cfg, env, s)
    ensures Pending(cfg, env, s).Some?
    ensures forall it :: it in DeliveryOrder(cfg, env, Pending(cfg, env, s).value) <==>
                           it in Pending(cfg, env, s).value && ForUs(cfg, env, it.path)
  {
    hide Pending, DeliveryOrder, WasRead, ForUs;
    var pending := Pending(cfg, env, s).value;
    ReadUpToReads(env, pending, 0);
    assert pending[..|pending|] == pending;
    hide ReadUpTo;
    OrderIsForUs(cfg, env, pending);
  }

  // ---- the poller, in its own form -----------------------------------------------------------

  class Poller {
    const cfg: Config
    const state: DeliveryStateFile
    var handed: seq<Item>
    var step: nat

    constructor (cfg: Config, state: DeliveryStateFile)
      ensures this.cfg == cfg && this.state == state && handed == []
    {
      this.cfg, this.state, handed, step := cfg, state, [], 0;
    }

    /** Performing `todo` from here ends in `files`, with `calls` given to the callback by then. */
    ghost predicate Owes(todo: seq<Effect>, env: Env, files: Files, calls: seq<Item>)
      reads this, state
    {
      && Execute(state.Value(), todo, env.outcome, step) == files
      && handed + HandedBy(todo, env.outcome, step) == calls
    }

    method Collect(known: seq<DeliveryEntry>, pending: seq<Item>, paths: seq<string>) returns (after: seq<Item>)
      ensures after == Take(cfg.names, known, pending, paths)
    {
      after := pending;
      for i := 0 to |paths|
        invariant after == Take(cfg.names, known, pending, paths[..i])
      {
        assert paths[..i + 1][..i] == paths[..i];
        var channel, id := cfg.names.channelOf(paths[i]), cfg.names.idOf(paths[i]);
        if channel.Some? && id.Some? && id.value !in EntryIds(known) && id.value !in ItemIds(after) {
          after := after + [Item(paths[i], id.value, channel.value)];
        }
      }
      assert paths[..|paths|] == paths;
    }

    method PageFeed(env: Env) returns (d: Discovery)
      ensures d == Discovered(cfg, env, State(state.entries, state.lastSeq))
    {
      hide Take;
      var since := state.lastSeq;
      d := Discovery([], None, None);
      ghost var known := state.entries;
      var page := 0;
      while page < cfg.maxPages
        invariant 0 <= page <= cfg.maxPages
        invariant Discover(cfg, env, known, page, since, d) == Discovered(cfg, env, State(known, state.lastSeq))
        decreases cfg.maxPages - page
      {
        match env.feed(page) {
          case FeedFault(retryable) =>
            d := d.(fault := Some(retryable));
            return;
          case Page(changes, lastSeq) =>
            var pending := Collect(state.entries, d.pending, changes);
            d := d.(pending := pending);
            if lastSeq.None? || lastSeq == since { return; }
            since := lastSeq;
            d := d.(lastSeqSeen := lastSeq);
            if changes == [] { return; }
            page := page + 1;
        }
      }
    }

    method ReadPending(env: Env, pending: seq<Item>) returns (n: nat, stop: Stop)
      ensures (n, stop) == ReadUpTo(env, pending, 0)
      ensures n <= |pending|
    {
      n := 0;
      while n < |pending|
        invariant n <= |pending|
        invariant ReadUpTo(env, pending, n) == ReadUpTo(env, pending, 0)
      {
        if env.privateBeforeRead(n) { return n, PausedAt(Private); }
        match env.readOf(pending[n].path) {
          case ReadThrew => return n, Aborted;
          case Refused(reason) => if reason == ReadUnavailable { return n, PausedAt(Unavailable); }
          case Message(_, _, _, _) =>
        }
        n := n + 1;
      }
      stop := AllRead;
    }

    /** One durable mark; when it throws nothing further is performed. */
    method MarkEntry(env: Env, e: DeliveryEntry, ghost rest: seq<Effect>, ghost files: Files, ghost calls: seq<Item>)
      returns (ok: bool)
      requires Owes([Mark(e)] + rest, env, files, calls)
      modifies state, this`step
      ensures Owes(if ok then rest else [], env, files, calls)
    {
      hide Execute, HandedBy, Record;
      FirstEffect(state.Value(), Mark(e), rest, env.outcome, step);
      ok := state.RecordEntry(e, env.outcome(step));
      step := step + 1;
    }

    method SkipPhase(env: Env, items: seq<Item>, ghost rest: seq<Effect>, ghost files: Files, ghost calls: seq<Item>)
      returns (ok: bool, ds: seq<Item>)
      requires Owes(SkipEffects(cfg, env, items, 0) + rest, env, files, calls)
      modifies state, this`step
      ensures Owes(if ok then rest else [], env, files, calls)
      ensures ok ==> ds == Filter(items, Deliverable(cfg, env))
    {
      hide Filter, Execute, HandedBy;
      ds := [];
      assert items[0..] == items;
      for i := 0 to |items|
        invariant Owes(SkipEffects(cfg, env, items, i) + rest, env, files, calls)
        invariant ds + Filter(items[i..], Deliverable(cfg, env)) == Filter(items, Deliverable(cfg, env))
      {
        FilterAt(items, Deliverable(cfg, env), i);
        var verdict := SkipFor(cfg, env, items[i]);
        ghost var later := SkipEffects(cfg, env, items, i + 1);
        if verdict.Some? {
          var e := SkippedEntry(items[i].msgId, items[i].path, items[i].channel, verdict.value, env.skipTime(i));
          assert SkipEffects(cfg, env, items, i) + rest == [Mark(e)] + (later + rest);
          ok := MarkEntry(env, e, later + rest, files, calls);
          if !ok { return; }
        } else {
          ds := ds + [items[i]];
        }
      }
      assert SkipEffects(cfg, env, items, |items|) + rest == rest;
      assert items[|items|..] == [];
      ok := true;
    }

    /** Hands the messages over one by one; a callback that throws counts as having been called. */
    method DeliverPhase(env: Env, ds: seq<Item>, ghost rest: seq<Effect>, ghost files: Files, ghost calls: seq<Item>)
      returns (ok: bool, flipped: bool)
      requires Owes(HandEffects(env, ds, 0) + rest, env, files, calls)
      modifies state, this`handed, this`step
      ensures Owes(if ok then rest else [], env, files, calls)
      ensures ok ==> (flipped <==> FlipsPrivate(env, ds))
      ensures ok && !flipped ==> handed == old(handed) + ds
    {
      hide Owes, HandEffects;
      for k := 0 to |ds|
        invariant handed == old(handed) + ds[..k]
        invariant Owes(HandEffects(env, ds, k) + rest, env, files, calls)
        invariant forall j :: 0 <= j < k ==> !env.privateBeforeDeliver(j)
      {
        HandsFrom(env, ds, k, rest);
        if env.privateBeforeDeliver(k) {
          return true, true;
        }
        var e := Delivered(ds[k].msgId, ds[k].path, ds[k].channel, env.deliverTime(k));
        ghost var later := HandEffects(env, ds, k + 1) + rest;
        ok := CallBack(env, ds[k], [Mark(e)] + later, files, calls);
        if !ok { return false, false; }
        ok := MarkEntry(env, e, later, files, calls);
        if !ok { return false, false; }
      }
      HandsFrom(env, ds, |ds|, rest);
      return true, false;
    }

    method CallBack(env: Env, it: Item, ghost rest: seq<Effect>, ghost files: Files, ghost calls: seq<Item>)
      returns (ok: bool)
      requires Owes([Hand(it)] + rest, env, files, calls)
      modifies this`handed, this`step
      ensures Owes(if ok then rest else [], env, files, calls)
      ensures handed == old(handed) + [it]
    {
      hide Execute, HandedBy;
      FirstEffect(state.Value(), Hand(it), rest, env.outcome, step);
      ok := env.outcome(step) == Written;
      step := step + 1;
      handed := handed + [it];
    }

    method AdvanceCursor(env: Env, n: nat, ghost files: Files, ghost calls: seq<Item>) returns (ok: bool)
      requires Owes([MoveCursor(n)], env, files, calls)
      modifies state, this`step
      ensures Owes([], env, files, calls)
    {
      hide Execute, HandedBy, SetLastSeq;
      FirstEffect(state.Value(), MoveCursor(n), [], env.outcome, step);
      assert [MoveCursor(n)] + [] == [MoveCursor(n)];
      ok := state.MoveCursor(n, env.outcome(step));
      step := step + 1;
    }

    method RunCycleInner(env: Env, ghost files: Files, ghost calls: seq<Item>) returns (paused: Option<Pause>)
      requires Owes(CyclePlan(cfg, env, State(state.entries, state.lastSeq)), env, files, calls)
      modifies state, this`handed, this`step
      ensures Owes([], env, files, calls)
      ensures paused.None? ==> Completes(cfg, env, old(State(state.entries, state.lastSeq)))
      ensures paused.None? ==>
                handed == old(handed) + DeliveryOrder(cfg, env, Pending(cfg, env, old(State(state.entries, state.lastSeq))).value)
    {
      hide Discover, Take, ReadUpTo, SkipEffects, HandEffects, FlipsPrivate, Execute, HandedBy;
      ghost var s := State(state.entries, state.lastSeq);
      ghost var plan := CyclePlan(cfg, env, s);
      if env.privateAtStart { return Some(Private); }
      var unread := state.Unreads();
      if unread >= cfg.backlogPauseAt { return Some(Backlog); }
      var d := PageFeed(env);
      var pending := d.pending;
      if d.fault.Some? {
        if d.fault.value || env.listing.ListingThrew? { return Some(Unavailable); }
        pending := Collect(state.entries, pending, env.listing.paths);
      }
      assert Pending(cfg, env, s) == Some(pending);
      var n, stop := ReadPending(env, pending);
      if stop == Aborted { return Some(Unavailable); }
      var items := pending[..n];
      ghost var last := CursorEffect(cfg, env, s);
      ghost var hands := HandEffects(env, DeliveryOrder(cfg, env, items), 0);
      assert plan == SkipEffects(cfg, env, items, 0) + (hands + last);
      var ok, ds := SkipPhase(env, items, hands + last, files, calls);
      if !ok { return Some(Unavailable); }
      ds := SortBy(ds, CreatedAt(env));
      var flipped;
      ok, flipped := DeliverPhase(env, ds, last, files, calls);
      if !ok { return Some(Unavailable); }
      assert stop.AllRead? ==> items == pending;
      if stop.PausedAt? { return Some(stop.pause); }
      if flipped { return Some(Private); }
      if d.lastSeqSeen.Some? {
        ok := AdvanceCursor(env, d.lastSeqSeen.value, files, calls);
        if !ok { return Some(Unavailable); }
      }
      return None;
    }

    method RunCycle(env: Env) returns (paused: Option<Pause>)
      modifies state, this`handed, this`step
      ensures var s := old(State(state.entries, state.lastSeq));
              && state.Value() == Execute(old(state.Value()), CyclePlan(cfg, env, s), env.outcome, 0)
              && handed == old(handed) + HandedBy(CyclePlan(cfg, env, s), env.outcome, 0)
              && (paused.None? ==> Completes(cfg, env, s))
      ensures forall it :: it in handed[|old(handed)|..] ==> ForUs(cfg, env, it.path)
      ensures paused.None? ==>
                forall it :: it in Pending(cfg, env, old(State(state.entries, state.lastSeq))).value && ForUs(cfg, env, it.path) ==>
                               it in handed[|old(handed)|..]
    {
      hide CyclePlan, Completes, Pending, DeliveryOrder, ForUs;
      ghost var s := State(state.entries, state.lastSeq);
      CycleIsRight(cfg, env, s);
      HandedAreHands(CyclePlan(cfg, env, s), env.outcome, 0);
      if Completes(cfg, env, s) { CompletedReads(cfg, env, s); }
      ghost var plan := CyclePlan(cfg, env, State(state.entries, state.lastSeq));
      step := 0;
      paused := RunCycleInner(env, Execute(state.Value(), plan, env.outcome, 0), handed + HandedBy(plan, env.outcome, 0));
    }
  }
}
