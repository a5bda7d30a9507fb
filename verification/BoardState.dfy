/**
 * The durable per-consumer delivery state: a dedupe dictionary with its retention and eviction,
 * and the feed cursor. Every mutation ends in `save`, which prunes, evicts, and rewrites the file.
 */
module BoardState {
  import opened Common

  const MAX_TRACKED_ENTRIES: nat := 2000
  const ACK_RETENTION_MS: int := 14 * 24 * 60 * 60 * 1000

  datatype SkipReason = Expired | Unauthorized | Missing | MalformedMessage

  /** The dictionary keeps insertion order; `msgId` is the key. */
  datatype DeliveryEntry = DeliveryEntry(
    msgId: string,
    path: string,
    channel: string,
    deliveredAt: Option<int>,
    ackedAt: Option<int>,
    skip: Option<SkipReason>,
    skippedAt: Option<int>)

  /** `lastSeq` is a feed position. */
  datatype State = State(entries: seq<DeliveryEntry>, lastSeq: Option<nat>)

  function OrElse(o: Option<int>, d: int): int {
    if o.Some? then o.value else d
  }

  predicate Settled(e: DeliveryEntry) {
    e.ackedAt.Some? || e.skip.Some?
  }

  predicate Unread(e: DeliveryEntry) {
    || (e.deliveredAt.Some? && e.ackedAt.None?)
    || (e.deliveredAt.None? && e.skip.None?)
  }

  function UnreadCount(es: seq<DeliveryEntry>): nat {
    if es == [] then 0 else UnreadCount(es[..|es| - 1]) + if Unread(es[|es| - 1]) then 1 else 0
  }

  function EntryIds(es: seq<DeliveryEntry>): set<string> {
    set e | e in es :: e.msgId
  }

  ghost predicate DistinctIds(es: seq<DeliveryEntry>) {
    forall i, j :: 0 <= i < j < |es| ==> es[i].msgId != es[j].msgId
  }

  function IndexOf(es: seq<DeliveryEntry>, id: string): (r: Option<nat>)
    ensures r.Some? ==> r.value < |es| && es[r.value].msgId == id
    ensures r.None? ==> id !in EntryIds(es)
  {
    if es == [] then None
    else if es[0].msgId == id then Some(0)
    else
      match IndexOf(es[1..], id)
      case None => None
      case Some(k) => Some(k + 1)
  }

  /** Assigning a key: in place when present, at the end when new. */
  function Put(es: seq<DeliveryEntry>, e: DeliveryEntry): seq<DeliveryEntry> {
    match IndexOf(es, e.msgId)
    case Some(k) => es[k := e]
    case None => es + [e]
  }

  // ---- save ------------------------------------------------------------------------

  function Latest(e: DeliveryEntry): int {
    Max(Max(OrElse(e.deliveredAt, 0), OrElse(e.ackedAt, 0)), OrElse(e.skippedAt, 0))
  }

  function Newest(es: seq<DeliveryEntry>): int {
    if es == [] then 0 else Max(Newest(es[..|es| - 1]), Latest(es[|es| - 1]))
  }

  lemma {:induction false} NewestIsMaximum(es: seq<DeliveryEntry>)
    ensures Newest(es) >= 0
    ensures forall e :: e in es ==> Latest(e) <= Newest(es)
    ensures Newest(es) == 0 || exists e :: e in es && Latest(e) == Newest(es)
  {
    if es != [] {
      var init, last := es[..|es| - 1], es[|es| - 1];
      NewestIsMaximum(init);
      assert es == init + [last];
      if Newest(es) == Latest(last) {
        assert last in es;
      }
    }
  }

  function AckYoungerThan(now: int): DeliveryEntry -> bool {
    (e: DeliveryEntry) => !(e.ackedAt.Some? && now - e.ackedAt.value > ACK_RETENTION_MS)
  }

  function Pruned(es: seq<DeliveryEntry>): seq<DeliveryEntry> {
    Filter(es, AckYoungerThan(Newest(es)))
  }

  function Age(e: DeliveryEntry): int {
    if e.ackedAt.Some? then e.ackedAt.value
    else if e.skippedAt.Some? then e.skippedAt.value
    else OrElse(e.deliveredAt, 0)
  }

  /** The keys eviction deletes: the first `over` settled entries of the sorted list. */
  function Victims(list: seq<DeliveryEntry>, over: int): seq<string> {
    if over <= 0 || list == [] then []
    else if Settled(list[0]) then [list[0].msgId] + Victims(list[1..], over - 1)
    else Victims(list[1..], over)
  }

  function KeyOtherThan(id: string): DeliveryEntry -> bool {
    (e: DeliveryEntry) => e.msgId != id
  }

  function Delete(es: seq<DeliveryEntry>, id: string): seq<DeliveryEntry> {
    Filter(es, KeyOtherThan(id))
  }

  function DeleteAll(es: seq<DeliveryEntry>, ids: seq<string>): seq<DeliveryEntry>
    decreases |ids|
  {
    if ids == [] then es else DeleteAll(Delete(es, ids[0]), ids[1..])
  }

  function Evicted(es: seq<DeliveryEntry>): seq<DeliveryEntry> {
    DeleteAll(es, Victims(SortBy(es, Age), |es| - MAX_TRACKED_ENTRIES))
  }

  function Saved(es: seq<DeliveryEntry>): seq<DeliveryEntry> {
    Evicted(Pruned(es))
  }

  // ---- the operations ----------------------------------------------------------------

  /** Memory and state file. Memory is not rolled back when a save throws. */
  datatype Files = Files(mem: State, disk: State)

  function Save(f: Files, s: State, p: Persist): Files {
    var mem := s.(entries := Saved(s.entries));
    Files(mem, if p == Fault(false) then f.disk else mem)
  }

  function Delivered(id: string, path: string, channel: string, now: int): DeliveryEntry {
    DeliveryEntry(id, path, channel, Some(now), None, None, None)
  }

  function SkippedEntry(id: string, path: string, channel: string, reason: SkipReason, now: int): DeliveryEntry {
    DeliveryEntry(id, path, channel, None, None, Some(reason), Some(now))
  }

  function Record(f: Files, e: DeliveryEntry, p: Persist): Files {
    Save(f, f.mem.(entries := Put(f.mem.entries, e)), p)
  }

  function SetLastSeq(f: Files, n: nat, p: Persist): Files {
    Save(f, f.mem.(lastSeq := Some(n)), p)
  }

  function Ack(f: Files, id: string, now: int, p: Persist): Files {
    match IndexOf(f.mem.entries, id)
    case None => f
    case Some(k) =>
      var e := f.mem.entries[k];
      if e.ackedAt.Some? then f
      else Save(f, f.mem.(entries := f.mem.entries[k := e.(ackedAt := Some(now))]), p)
  }

  function SettledAt(e: DeliveryEntry): Option<int> {
    if e.ackedAt.Some? then e.ackedAt else e.skippedAt
  }

  function SettledWithin(now: int): DeliveryEntry -> bool {
    (e: DeliveryEntry) => SettledAt(e).None? || now - SettledAt(e).value <= ACK_RETENTION_MS
  }

  /** Manual local cleanup of acknowledged and skipped entries past retention. */
  function Collect(f: Files, now: int, p: Persist): Files {
    var kept := Filter(f.mem.entries, SettledWithin(now));
    if |kept| == |f.mem.entries| then f else Save(f, f.mem.(entries := kept), p)
  }

  // ---- the state file, in its own form ----------------------------------------------

  class DeliveryStateFile {
    var entries: seq<DeliveryEntry>
    var lastSeq: Option<nat>
    var file: State

    ghost function Value(): Files
      reads this
    {
      Files(State(entries, lastSeq), file)
    }

    constructor (onDisk: State)
      ensures Value() == Files(onDisk, onDisk)
    {
      entries, lastSeq, file := onDisk.entries, onDisk.lastSeq, onDisk;
    }

    method Unreads() returns (n: nat)
      ensures n == UnreadCount(entries)
    {
      n := 0;
      for i := 0 to |entries|
        invariant n == UnreadCount(entries[..i])
      {
        assert entries[..i + 1][..i] == entries[..i];
        if Unread(entries[i]) { n := n + 1; }
      }
      assert entries[..|entries|] == entries;
    }

    method NewestInstant() returns (now: int)
      ensures now == Newest(entries)
    {
      now := 0;
      for i := 0 to |entries|
        invariant now == Newest(entries[..i])
      {
        assert entries[..i + 1][..i] == entries[..i];
        now := Max(now, Latest(entries[i]));
      }
      assert entries[..|entries|] == entries;
    }

    /** Deletes settled entries, oldest first, while the dictionary is over its cap. */
    method Evict()
      modifies this`entries
      ensures entries == Evicted(old(entries))
    {
      var list := SortBy(entries, Age);
      var over := |entries| - MAX_TRACKED_ENTRIES;
      var i := 0;
      while i < |list| && over > 0
        invariant 0 <= i <= |list|
        invariant DeleteAll(entries, Victims(list[i..], over)) == Evicted(old(entries))
      {
        assert list[i..][1..] == list[i + 1..];
        if Settled(list[i]) {
          assert Victims(list[i..], over)[1..] == Victims(list[i + 1..], over - 1);
          entries := Delete(entries, list[i].msgId);
          over := over - 1;
        }
        i := i + 1;
      }
    }

    method SaveState(p: Persist) returns (ok: bool)
      modifies this
      ensures Value() == Save(old(Value()), old(State(entries, lastSeq)), p)
      ensures ok <==> p == Written
    {
      var now := NewestInstant();
      entries := Filter(entries, AckYoungerThan(now));
      Evict();
      if p != Fault(false) {
        file := State(entries, lastSeq);
      }
      ok := p == Written;
    }

    method RecordEntry(e: DeliveryEntry, p: Persist) returns (ok: bool)
      modifies this
      ensures Value() == Record(old(Value()), e, p)
      ensures ok <==> p == Written
    {
      var i := IndexOf(entries, e.msgId);
      if i.Some? {
        entries := entries[i.value := e];
      } else {
        entries := entries + [e];
      }
      ok := SaveState(p);
    }

    method MoveCursor(n: nat, p: Persist) returns (ok: bool)
      modifies this
      ensures Value() == SetLastSeq(old(Value()), n, p)
      ensures ok <==> p == Written
    {
      lastSeq := Some(n);
      ok := SaveState(p);
    }

    method RecordAck(id: string, now: int, p: Persist) returns (found: bool)
      modifies this
      ensures Value() == Ack(old(Value()), id, now, p)
      ensures found <==> id in EntryIds(old(entries))
    {
      var i := IndexOf(entries, id);
      if i.None? { return false; }
      assert entries[i.value] in entries;
      found := true;
      var e := entries[i.value];
      if e.ackedAt.None? {
        entries := entries[i.value := e.(ackedAt := Some(now))];
        var ok := SaveState(p);
      }
    }

    method Retained(now: int) returns (kept: seq<DeliveryEntry>)
      ensures kept == Filter(entries, SettledWithin(now))
    {
      hide Filter;
      kept := [];
      assert entries[0..] == entries;
      for i := 0 to |entries|
        invariant kept + Filter(entries[i..], SettledWithin(now)) == Filter(entries, SettledWithin(now))
      {
        FilterAt(entries, SettledWithin(now), i);
        var at := SettledAt(entries[i]);
        if at.None? || now - at.value <= ACK_RETENTION_MS {
          kept := kept + [entries[i]];
        }
      }
      assert entries[|entries|..] == [];
    }

    method CollectGarbage(now: int, p: Persist) returns (removed: nat)
      modifies this
      ensures Value() == Collect(old(Value()), now, p)
      ensures removed == |old(entries)| - |Filter(old(entries), SettledWithin(now))|
    {
      hide Saved;
      var kept := Retained(now);
      removed := |entries| - |kept|;
      if removed > 0 {
        entries := kept;
        var ok := SaveState(p);
      }
    }
  }

  // ---- what save promises --------------------------------------------------------------

  lemma {:induction false} FilterDistinct(es: seq<DeliveryEntry>, keep: DeliveryEntry -> bool)
    requires DistinctIds(es)
    ensures DistinctIds(Filter(es, keep))
  {
    if es != [] {
      FilterDistinct(es[1..], keep);
      var rest := Filter(es[1..], keep);
      forall i | 0 <= i < |rest| ensures rest[i].msgId != es[0].msgId {
        assert rest[i] in es[1..];
      }
    }
  }

  /** Victims are settled, no more than asked for, and fewer only when nothing settled is left. */
  lemma {:induction false} VictimsAreSettled(list: seq<DeliveryEntry>, over: int)
    ensures |Victims(list, over)| <= Max(0, over)
    ensures forall id :: id in Victims(list, over) ==> exists e :: e in list && e.msgId == id && Settled(e)
    ensures |Victims(list, over)| < over ==> forall e :: e in list && Settled(e) ==> e.msgId in Victims(list, over)
  {
    if over > 0 && list != [] {
      var rest := if Settled(list[0]) then Victims(list[1..], over - 1) else Victims(list[1..], over);
      VictimsAreSettled(list[1..], if Settled(list[0]) then over - 1 else over);
      assert forall e :: e in list <==> e == list[0] || e in list[1..];
    }
  }

  /** Nothing settled that stays is older than anything evicted. */
  lemma {:induction false} VictimsAreOldest(list: seq<DeliveryEntry>, over: int, v: DeliveryEntry, kept: DeliveryEntry)
    requires Sorted(list, Age)
    requires v in list && v.msgId in Victims(list, over)
    requires forall x, y :: x in list && y in list && x.msgId == y.msgId ==> x == y
    requires kept in list && Settled(kept) && kept.msgId !in Victims(list, over)
    ensures Age(v) <= Age(kept)
  {
    if list[0] == v {
    } else {
      VictimsAreSettled(list, over);
      assert forall e :: e in list <==> e == list[0] || e in list[1..];
      VictimsAreOldest(list[1..], if Settled(list[0]) then over - 1 else over, v, kept);
    }
  }

  lemma {:induction false} DeleteOne(es: seq<DeliveryEntry>, id: string)
    requires DistinctIds(es)
    ensures DistinctIds(Delete(es, id))
    ensures |Delete(es, id)| == |es| - if id in EntryIds(es) then 1 else 0
    ensures forall e :: e in Delete(es, id) <==> e in es && e.msgId != id
  {
    FilterDistinct(es, KeyOtherThan(id));
    if es != [] {
      DeleteOne(es[1..], id);
      assert EntryIds(es) == {es[0].msgId} + EntryIds(es[1..]);
      if es[0].msgId == id {
        assert id !in EntryIds(es[1..]);
      }
    }
  }

  ghost predicate DistinctStrings(ids: seq<string>) {
    forall i, j :: 0 <= i < j < |ids| ==> ids[i] != ids[j]
  }

  lemma {:induction false} DeleteMany(es: seq<DeliveryEntry>, ids: seq<string>)
    requires DistinctIds(es) && DistinctStrings(ids)
    requires forall id :: id in ids ==> id in EntryIds(es)
    ensures DistinctIds(DeleteAll(es, ids))
    ensures |DeleteAll(es, ids)| == |es| - |ids|
    ensures forall e :: e in DeleteAll(es, ids) <==> e in es && e.msgId !in ids
    decreases |ids|
  {
    if ids != [] {
      DeleteOne(es, ids[0]);
      var rest := Delete(es, ids[0]);
      forall id | id in ids[1..] ensures id in EntryIds(rest) {
        assert id in ids;
        var e :| e in es && e.msgId == id;
        assert e in rest;
      }
      DeleteMany(rest, ids[1..]);
    }
  }

  lemma {:induction false} VictimsDistinct(list: seq<DeliveryEntry>, over: int)
    requires DistinctIds(list)
    ensures DistinctStrings(Victims(list, over))
  {
    if over > 0 && list != [] {
      VictimsDistinct(list[1..], over - 1);
      VictimsDistinct(list[1..], over);
      VictimsAreSettled(list[1..], over - 1);
      var rest := Victims(list[1..], over - 1);
      assert forall e :: e in list[1..] ==> e.msgId != list[0].msgId;
      forall id | id in rest ensures id != list[0].msgId {
        var e :| e in list[1..] && e.msgId == id && Settled(e);
      }
      DistinctStringsCons(list[0].msgId, rest);
    }
  }

  lemma DistinctStringsCons(id: string, ids: seq<string>)
    requires DistinctStrings(ids) && id !in ids
    ensures DistinctStrings([id] + ids)
  {
  }

  lemma {:induction false} InsertDistinct(sorted: seq<DeliveryEntry>, e: DeliveryEntry)
    requires DistinctIds(sorted) && e.msgId !in EntryIds(sorted)
    ensures DistinctIds(Insert(sorted, e, Age))
  {
    if !(sorted == [] || Age(sorted[|sorted| - 1]) <= Age(e)) {
      var init, last := sorted[..|sorted| - 1], sorted[|sorted| - 1];
      assert last in sorted && forall x :: x in init ==> x in sorted;
      InsertDistinct(init, e);
      InsertMembers(init, e, Age);
      var r := Insert(init, e, Age);
      forall i | 0 <= i < |r| ensures r[i].msgId != last.msgId {
        assert r[i] in r;
      }
    }
  }

  lemma {:induction false} SortDistinct(es: seq<DeliveryEntry>)
    requires DistinctIds(es)
    ensures DistinctIds(SortBy(es, Age))
  {
    if es != [] {
      var init, last := es[..|es| - 1], es[|es| - 1];
      SortDistinct(init);
      SortSorts(init, Age);
      forall x | x in SortBy(init, Age) ensures x.msgId != last.msgId {
        assert x in init;
      }
      InsertDistinct(SortBy(init, Age), last);
    }
  }

  lemma {:induction false} AllUnread(es: seq<DeliveryEntry>)
    requires forall e :: e in es ==> Unread(e)
    ensures UnreadCount(es) == |es|
  {
    if es != [] {
      assert forall e :: e in es[..|es| - 1] ==> e in es;
      AllUnread(es[..|es| - 1]);
    }
  }

  /**
   * Eviction: only settled entries go, the oldest first, and the dictionary ends at the cap or
   * holds nothing but unread entries.
   */
  lemma EvictionRespectsTheBacklog(es: seq<DeliveryEntry>)
    requires DistinctIds(es)
    ensures var after := Evicted(es);
            && DistinctIds(after)
            && (forall e :: e in after ==> e in es)
            && (forall e :: e in es && e !in after ==> Settled(e))
            && (|es| > MAX_TRACKED_ENTRIES ==> |after| == MAX_TRACKED_ENTRIES || UnreadCount(after) == |after|)
            && (|es| <= MAX_TRACKED_ENTRIES ==> after == es)
            && |after| <= Max(MAX_TRACKED_ENTRIES, UnreadCount(after))
  {
    var list, over := SortBy(es, Age), |es| - MAX_TRACKED_ENTRIES;
    var ids := Victims(list, over);
    VictimFacts(es);
    DeleteMany(es, ids);
    var after := Evicted(es);
    hide SortBy, Victims, DeleteAll, DistinctIds, DistinctStrings, EntryIds, UnreadCount;
    forall e | e in es && e !in after ensures Settled(e) {
      assert e.msgId in ids;
    }
    if |ids| < over {
      assert forall e :: e in after ==> Unread(e);
      AllUnread(after);
    }
  }

  lemma VictimFacts(es: seq<DeliveryEntry>)
    requires DistinctIds(es)
    ensures var over := |es| - MAX_TRACKED_ENTRIES;
            var ids := Victims(SortBy(es, Age), over);
            && DistinctStrings(ids) && |ids| <= Max(0, over)
            && (forall id :: id in ids ==> id in EntryIds(es))
            && (forall e :: e in es && e.msgId in ids ==> Settled(e))
            && (|ids| < over ==> forall e :: e in es && Settled(e) ==> e.msgId in ids)
  {
    var list, over := SortBy(es, Age), |es| - MAX_TRACKED_ENTRIES;
    SortSorts(es, Age);
    SortDistinct(es);
    VictimsAreSettled(list, over);
    VictimsDistinct(list, over);
    var ids := Victims(list, over);
    hide SortBy, Victims, DistinctIds, Sorted;
    forall id | id in ids ensures id in EntryIds(es) {
      var e :| e in list && e.msgId == id && Settled(e);
      assert e in es;
    }
    forall e | e in es && e.msgId in ids ensures Settled(e) {
      var x :| x in list && x.msgId == e.msgId && Settled(x);
      SameEntry(es, x, e);
    }
  }

  lemma SameEntry(es: seq<DeliveryEntry>, x: DeliveryEntry, y: DeliveryEntry)
    requires DistinctIds(es) && x in es && y in es && x.msgId == y.msgId
    ensures x == y
  {
    var i :| 0 <= i < |es| && es[i] == x;
    var j :| 0 <= j < |es| && es[j] == y;
  }

  lemma EvictionIsOldestFirst(es: seq<DeliveryEntry>, gone: DeliveryEntry, kept: DeliveryEntry)
    requires DistinctIds(es)
    requires gone in es && gone !in Evicted(es)
    requires kept in Evicted(es) && Settled(kept)
    ensures Age(gone) <= Age(kept)
  {
    hide SortBy, Victims, Evicted, DistinctIds, Sorted, Settled;
    SortSorts(es, Age);
    SortedKeepsIds(es);
    EvictedAre(es, gone);
    EvictedAre(es, kept);
    VictimsAreOldest(SortBy(es, Age), |es| - MAX_TRACKED_ENTRIES, gone, kept);
  }

  lemma SortedKeepsIds(es: seq<DeliveryEntry>)
    requires DistinctIds(es)
    ensures forall x, y :: x in SortBy(es, Age) && y in SortBy(es, Age) && x.msgId == y.msgId ==> x == y
  {
    SortSorts(es, Age);
    hide SortBy, DistinctIds, Sorted;
    forall x, y | x in SortBy(es, Age) && y in SortBy(es, Age) && x.msgId == y.msgId ensures x == y {
      SameEntry(es, x, y);
    }
  }

  lemma EvictedAre(es: seq<DeliveryEntry>, e: DeliveryEntry)
    requires DistinctIds(es)
    ensures e in Evicted(es) <==> e in es && e.msgId !in Victims(SortBy(es, Age), |es| - MAX_TRACKED_ENTRIES)
  {
    hide SortBy, Victims, DeleteAll, DistinctIds, DistinctStrings, EntryIds, Settled;
    VictimFacts(es);
    DeleteMany(es, Victims(SortBy(es, Age), |es| - MAX_TRACKED_ENTRIES));
  }

  /** Entries are written whole, as a delivery or as a skip, never as both. */
  predicate OneKind(e: DeliveryEntry) {
    (e.deliveredAt.Some? <==> e.skip.None?) && (e.skippedAt.Some? <==> e.skip.Some?)
  }

  ghost predicate DeliveredOrSkipped(es: seq<DeliveryEntry>) {
    forall e :: e in es ==> OneKind(e)
  }

  ghost predicate AcksRecent(es: seq<DeliveryEntry>) {
    forall e :: e in es && e.ackedAt.Some? ==> Newest(es) - e.ackedAt.value <= ACK_RETENTION_MS
  }

  /**
   * `save` never removes the backlog: what it removes is an entry acknowledged more than the
   * retention period before the newest activity, or a settled entry of an over-full dictionary.
   */
  lemma SaveKeepsTheBacklog(es: seq<DeliveryEntry>)
    requires DistinctIds(es)
    ensures var after := Saved(es);
            && DistinctIds(after)
            && (forall e :: e in after ==> e in es)
            && |after| <= Max(MAX_TRACKED_ENTRIES, UnreadCount(after))
            && AcksRecent(after)
            && (forall e :: e in es && e !in after ==>
                  || (e.ackedAt.Some? && Newest(es) - e.ackedAt.value > ACK_RETENTION_MS)
                  || (Settled(e) && |es| > MAX_TRACKED_ENTRIES))
            && (DeliveredOrSkipped(es) ==> forall e :: e in es && Unread(e) ==> e in after)
  {
    FilterDistinct(es, AckYoungerThan(Newest(es)));
    EvictionRespectsTheBacklog(Pruned(es));
    PruningIsByAge(es);
    SavedAcksRecent(es);
    SavedRemoves(es);
    if DeliveredOrSkipped(es) { SavedKeepsUnread(es); }
    hide Evicted, Pruned, Newest, DistinctIds, UnreadCount, AcksRecent, DeliveredOrSkipped;
  }

  lemma SavedAcksRecent(es: seq<DeliveryEntry>)
    requires DistinctIds(es)
    ensures AcksRecent(Saved(es))
  {
    var kept, after := Pruned(es), Saved(es);
    FilterDistinct(es, AckYoungerThan(Newest(es)));
    EvictionRespectsTheBacklog(kept);
    PruningIsByAge(es);
    NewestShrinks(es, after);
    hide Saved, Evicted, Pruned, Newest, DistinctIds, UnreadCount;
    forall e | e in after && e.ackedAt.Some? ensures Newest(after) - e.ackedAt.value <= ACK_RETENTION_MS {
      assert e in kept;
    }
  }

  lemma SavedRemoves(es: seq<DeliveryEntry>)
    requires DistinctIds(es)
    ensures forall e :: e in es && e !in Saved(es) ==>
              || (e.ackedAt.Some? && Newest(es) - e.ackedAt.value > ACK_RETENTION_MS)
              || (Settled(e) && |es| > MAX_TRACKED_ENTRIES)
  {
    var kept := Pruned(es);
    FilterDistinct(es, AckYoungerThan(Newest(es)));
    EvictionRespectsTheBacklog(kept);
    PruningIsByAge(es);
    hide Evicted, Pruned, Newest, DistinctIds, UnreadCount;
  }

  lemma SavedKeepsUnread(es: seq<DeliveryEntry>)
    requires DistinctIds(es) && DeliveredOrSkipped(es)
    ensures forall e :: e in es && Unread(e) ==> e in Saved(es)
  {
    SavedRemoves(es);
    hide Saved;
    forall e | e in es && Unread(e) ensures e in Saved(es) {
      assert OneKind(e) && !Settled(e);
    }
  }

  lemma PruningIsByAge(es: seq<DeliveryEntry>)
    ensures |Pruned(es)| <= |es|
    ensures forall e :: e in Pruned(es) <==> e in es && (e.ackedAt.Some? ==> Newest(es) - e.ackedAt.value <= ACK_RETENTION_MS)
  {
  }

  lemma NewestShrinks(es: seq<DeliveryEntry>, some: seq<DeliveryEntry>)
    requires forall e :: e in some ==> e in es
    ensures Newest(some) <= Newest(es)
  {
    NewestIsMaximum(some);
    NewestIsMaximum(es);
    if Newest(some) != 0 {
      var e :| e in some && Latest(e) == Newest(some);
      assert e in es;
    }
  }

  // ---- what holds at all times -------------------------------------------------------------

  ghost predicate StateOk(s: State) {
    DistinctIds(s.entries) && DeliveredOrSkipped(s.entries) && AcksRecent(s.entries)
    && |s.entries| <= Max(MAX_TRACKED_ENTRIES, UnreadCount(s.entries))
  }

  ghost predicate FilesOk(f: Files) {
    StateOk(f.mem) && StateOk(f.disk)
  }

  lemma SaveIsOk(f: Files, s: State, p: Persist)
    requires FilesOk(f) && DistinctIds(s.entries) && DeliveredOrSkipped(s.entries)
    ensures FilesOk(Save(f, s, p))
  {
    SaveKeepsTheBacklog(s.entries);
    hide Saved, AcksRecent, DistinctIds;
  }

  lemma PutDistinct(es: seq<DeliveryEntry>, e: DeliveryEntry)
    requires DistinctIds(es)
    ensures DistinctIds(Put(es, e))
    ensures forall x :: x in Put(es, e) ==> x == e || x in es
    ensures forall x :: x in es && x.msgId != e.msgId ==> x in Put(es, e)
    ensures e in Put(es, e)
  {
    var i := IndexOf(es, e.msgId);
    if i.None? {
      assert forall k :: 0 <= k < |es| ==> es[k] in es;
    } else {
      var after := es[i.value := e];
      assert after[i.value] == e;
      forall x | x in es && x.msgId != e.msgId ensures x in after {
        var k :| 0 <= k < |es| && es[k] == x;
        assert after[k] == x;
      }
    }
  }

  lemma RecordKeepsOk(f: Files, e: DeliveryEntry, p: Persist)
    requires FilesOk(f) && OneKind(e)
    ensures FilesOk(Record(f, e, p))
  {
    hide Saved, AcksRecent, DistinctIds, Put, UnreadCount;
    PutDistinct(f.mem.entries, e);
    SaveIsOk(f, f.mem.(entries := Put(f.mem.entries, e)), p);
  }

  lemma AckKeepsOk(f: Files, id: string, now: int, p: Persist)
    requires FilesOk(f)
    ensures FilesOk(Ack(f, id, now, p))
  {
    var i := IndexOf(f.mem.entries, id);
    if i.Some? {
      var es := f.mem.entries;
      var e := es[i.value];
      assert e in es;
      SaveIsOk(f, f.mem.(entries := es[i.value := e.(ackedAt := Some(now))]), p);
      hide Saved, AcksRecent, UnreadCount;
    }
  }

  lemma CollectKeepsOk(f: Files, now: int, p: Persist)
    requires FilesOk(f)
    ensures FilesOk(Collect(f, now, p))
    ensures forall e :: e in f.mem.entries && Unread(e) ==> e in Collect(f, now, p).mem.entries
  {
    var kept := Filter(f.mem.entries, SettledWithin(now));
    FilterDistinct(f.mem.entries, SettledWithin(now));
    SaveIsOk(f, f.mem.(entries := kept), p);
    SaveKeepsTheBacklog(kept);
    assert forall e :: e in f.mem.entries && Unread(e) ==> e in kept;
    hide Saved, AcksRecent, UnreadCount, DistinctIds;
  }
}
