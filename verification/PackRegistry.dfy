/**
 * Evidence packs awaiting injection: a registry that hands each pack out once, on a newly appended
 * user message, with a bounded memory of the messages already matched; and the builder that gives
 * every pack an id of its own and fits it under the token cap.
 */
module PackRegistry {
  import opened Common

  const MAX_KEYS: nat := 512
  const MAX_COUNTS_PER_KEY: nat := 64

  datatype Origin = FreshTurn | Queued

  datatype Pack = Pack(inputId: string, rawText: string)

  datatype PendingPack = PendingPack(pack: Pack, origin: Origin)

  datatype Message = User(text: string) | Other

  /** The counts seen for one text; both lists are oldest first. */
  datatype Barrier = Barrier(key: string, counts: seq<nat>)

  /** The last four fields are history: what became of the registered packs. */
  datatype Registry = Registry(
    pending: seq<PendingPack>,
    consumed: set<string>,
    seen: seq<Barrier>,
    registered: set<string>,
    handed: seq<string>,
    dropped: set<string>,
    cleared: set<string>)

  const Empty: Registry := Registry([], {}, [], {}, [], {}, {})

  // ---- the barriers ----------------------------------------------------------------

  function KeyIndex(seen: seq<Barrier>, key: string): (r: Option<nat>)
    ensures r.Some? ==> r.value < |seen| && seen[r.value].key == key
    ensures r.None? ==> forall b :: b in seen ==> b.key != key
  {
    if seen == [] then None
    else if seen[0].key == key then Some(0)
    else
      match KeyIndex(seen[1..], key)
      case None => None
      case Some(k) => Some(k + 1)
  }

  predicate Seen(seen: seq<Barrier>, key: string, count: nat) {
    var i := KeyIndex(seen, key);
    i.Some? && count in seen[i.value].counts
  }

  /** Room for a new key is made by forgetting the key that came first. */
  function MakeRoom(seen: seq<Barrier>, key: string): seq<Barrier> {
    if |seen| >= MAX_KEYS && KeyIndex(seen, key).None? then seen[1..] else seen
  }

  function AddCount(counts: seq<nat>, count: nat): seq<nat> {
    var kept := if |counts| >= MAX_COUNTS_PER_KEY then counts[1..] else counts;
    if count in kept then kept else kept + [count]
  }

  function RecordCount(seen: seq<Barrier>, key: string, count: nat): seq<Barrier> {
    var room := MakeRoom(seen, key);
    match KeyIndex(room, key)
    case None => room + [Barrier(key, AddCount([], count))]
    case Some(i) => room[i := Barrier(key, AddCount(room[i].counts, count))]
  }

  // ---- the operations ----------------------------------------------------------------

  function PendingIds(pending: seq<PendingPack>): set<string> {
    set p | p in pending :: p.pack.inputId
  }

  function Add(r: Registry, pack: Pack, origin: Origin): (Registry, bool) {
    if pack.inputId in r.consumed || pack.inputId in PendingIds(r.pending) then (r, false)
    else (r.(pending := r.pending + [PendingPack(pack, origin)],
             registered := r.registered + {pack.inputId},
             cleared := r.cleared - {pack.inputId}), true)
  }

  /** The first pending pack for a key, fresh ones only when asked. */
  function FirstMatch(keyOf: string -> string, pending: seq<PendingPack>, key: string, freshOnly: bool): (r: Option<nat>)
    ensures r.Some? ==> r.value < |pending| && keyOf(pending[r.value].pack.rawText) == key
                        && (freshOnly ==> pending[r.value].origin == FreshTurn)
    ensures r.Some? ==> forall k :: 0 <= k < r.value ==>
              keyOf(pending[k].pack.rawText) != key || (freshOnly && pending[k].origin != FreshTurn)
    ensures r.None? ==> forall k :: 0 <= k < |pending| ==>
              keyOf(pending[k].pack.rawText) != key || (freshOnly && pending[k].origin != FreshTurn)
  {
    if pending == [] then None
    else if (freshOnly ==> pending[0].origin == FreshTurn) && keyOf(pending[0].pack.rawText) == key then Some(0)
    else
      match FirstMatch(keyOf, pending[1..], key, freshOnly)
      case None => None
      case Some(k) => Some(k + 1)
  }

  /** Takes one pack out and never lets its id in again. */
  function HandOut(r: Registry, i: nat): Registry
    requires i < |r.pending|
  {
    var id := r.pending[i].pack.inputId;
    r.(pending := r.pending[..i] + r.pending[i + 1..], consumed := r.consumed + {id}, handed := r.handed + [id])
  }

  function LastUser(messages: seq<Message>): Option<string> {
    if messages == [] then None
    else if messages[|messages| - 1].User? then Some(messages[|messages| - 1].text)
    else LastUser(messages[..|messages| - 1])
  }

  function CountUsers(messages: seq<Message>): nat {
    if messages == [] then 0
    else CountUsers(messages[..|messages| - 1]) + if messages[|messages| - 1].User? then 1 else 0
  }

  /** Searched from the end. */
  method LastUserMessage(messages: seq<Message>) returns (text: Option<string>)
    ensures text == LastUser(messages)
  {
    var i := |messages|;
    assert messages[..i] == messages;
    while i > 0
      invariant i <= |messages| && LastUser(messages[..i]) == LastUser(messages)
    {
      i := i - 1;
      assert messages[..i + 1][..i] == messages[..i];
      if messages[i].User? { return Some(messages[i].text); }
    }
    return None;
  }

  datatype Match = NoUserMessage | NoPendingMatch | SameOccurrence | Matched(pack: Pack)

  function ConsumeMatching(keyOf: string -> string, r: Registry, messages: seq<Message>): (Registry, Match) {
    match LastUser(messages)
    case None => (r, NoUserMessage)
    case Some(text) =>
      var key, count := keyOf(text), CountUsers(messages);
      if Seen(r.seen, key, count) then (r, SameOccurrence)
      else
        var noted := r.(seen := RecordCount(r.seen, key, count));
        match FirstMatch(keyOf, r.pending, key, false)
        case None => (noted, NoPendingMatch)
        case Some(i) => (HandOut(noted, i), Matched(r.pending[i].pack))
  }

  function ConsumeFresh(keyOf: string -> string, r: Registry, prompt: string): (Registry, Option<Pack>) {
    match FirstMatch(keyOf, r.pending, keyOf(prompt), true)
    case None => (r, None)
    case Some(i) => (HandOut(r, i), Some(r.pending[i].pack))
  }

  function DropUnmatched(r: Registry): Registry {
    r.(pending := [], consumed := r.consumed + PendingIds(r.pending), dropped := r.dropped + PendingIds(r.pending))
  }

  function Clear(r: Registry): Registry {
    r.(pending := [], cleared := r.cleared + PendingIds(r.pending))
  }

  // ---- the registry, in its own form -----------------------------------------------------

  class PendingPackRegistry {
    const keyOf: string -> string
    var pending: seq<PendingPack>
    var consumed: set<string>
    var seen: seq<Barrier>
    ghost var registered: set<string>
    ghost var handed: seq<string>
    ghost var dropped: set<string>
    ghost var cleared: set<string>

    ghost function Value(): Registry
      reads this
    {
      Registry(pending, consumed, seen, registered, handed, dropped, cleared)
    }

    constructor (keyOf: string -> string)
      ensures this.keyOf == keyOf && Value() == Empty
    {
      this.keyOf := keyOf;
      pending, consumed, seen := [], {}, [];
      registered, handed, dropped, cleared := {}, [], {}, {};
    }

    method Note(key: string, count: nat)
      modifies this`seen
      ensures seen == RecordCount(old(seen), key, count)
    {
      var at := KeyIndex(seen, key);
      if |seen| >= MAX_KEYS && at.None? {
        seen := seen[1..];
      }
      at := KeyIndex(seen, key);
      if at.None? {
        seen := seen + [Barrier(key, [])];
        LastKey(seen[..|seen| - 1], key);
        at := Some(|seen| - 1);
      }
      var counts := seen[at.value].counts;
      if |counts| >= MAX_COUNTS_PER_KEY {
        counts := counts[1..];
      }
      if count !in counts { counts := counts + [count]; }
      seen := seen[at.value := Barrier(key, counts)];
    }

    method Register(pack: Pack, origin: Origin) returns (ok: bool)
      modifies this
      ensures (Value(), ok) == Add(old(Value()), pack, origin)
    {
      if pack.inputId in consumed { return false; }
      for i := 0 to |pending|
        invariant forall k :: 0 <= k < i ==> pending[k].pack.inputId != pack.inputId
        invariant Value() == old(Value())
      {
        if pending[i].pack.inputId == pack.inputId {
          assert pending[i] in pending;
          return false;
        }
      }
      pending := pending + [PendingPack(pack, origin)];
      registered := registered + {pack.inputId};
      cleared := cleared - {pack.inputId};
      return true;
    }

    method Take(i: nat) returns (pack: Pack)
      requires i < |pending|
      modifies this`pending, this`consumed, this`handed
      ensures Value() == HandOut(old(Value()), i) && pack == old(pending)[i].pack
    {
      pack := pending[i].pack;
      pending := pending[..i] + pending[i + 1..];
      consumed := consumed + {pack.inputId};
      handed := handed + [pack.inputId];
    }

    method Match(messages: seq<Message>) returns (m: Match)
      modifies this
      ensures (Value(), m) == ConsumeMatching(keyOf, old(Value()), messages)
    {
      hide RecordCount, KeyIndex;
      var text := LastUserMessage(messages);
      if text.None? { return NoUserMessage; }
      var key, count := keyOf(text.value), CountUsers(messages);
      if Seen(seen, key, count) { return SameOccurrence; }
      Note(key, count);
      var i := FirstMatch(keyOf, pending, key, false);
      if i.None? { return NoPendingMatch; }
      var pack := Take(i.value);
      return Matched(pack);
    }

    method MatchFresh(prompt: string) returns (pack: Option<Pack>)
      modifies this
      ensures (Value(), pack) == ConsumeFresh(keyOf, old(Value()), prompt)
    {
      var i := FirstMatch(keyOf, pending, keyOf(prompt), true);
      if i.None? { return None; }
      var taken := Take(i.value);
      return Some(taken);
    }

    method Settle()
      modifies this
      ensures Value() == DropUnmatched(old(Value()))
    {
      for i := 0 to |pending|
        invariant pending == old(pending) && consumed == old(consumed) + PendingIds(pending[..i])
        invariant seen == old(seen) && registered == old(registered) && handed == old(handed)
        invariant dropped == old(dropped) && cleared == old(cleared)
      {
        assert pending[..i + 1] == pending[..i] + [pending[i]];
        consumed := consumed + {pending[i].pack.inputId};
      }
      assert pending[..|pending|] == pending;
      dropped := dropped + PendingIds(pending);
      pending := [];
    }

    method Reset()
      modifies this
      ensures Value() == Clear(old(Value()))
    {
      cleared := cleared + PendingIds(pending);
      pending := [];
    }
  }

  lemma {:induction false} LastKey(seen: seq<Barrier>, key: string)
    requires KeyIndex(seen, key).None?
    ensures KeyIndex(seen + [Barrier(key, [])], key) == Some(|seen|)
  {
    if seen != [] {
      assert (seen + [Barrier(key, [])])[1..] == seen[1..] + [Barrier(key, [])];
      LastKey(seen[1..], key);
    }
  }

  // ---- building packs -----------------------------------------------------------------------

  datatype Behavior = NoBehavior | Steer | FollowUp

  function BehaviorText(b: Behavior): string {
    match b
    case NoBehavior => ""
    case Steer => "steer"
    case FollowUp => "followUp"
  }

  function Decimal(n: nat): string {
    if n < 10 then [('0' as int + n) as char] else Decimal(n / 10) + [('0' as int + n % 10) as char]
  }

  function Fingerprint(hash: string -> string, text: string, b: Behavior): string {
    hash(text + "\0" + BehaviorText(b))
  }

  function OccurrenceInputId(hash: string -> string, base: string, occurrence: nat): string {
    if occurrence <= 1 then base else hash(base + "#occ:" + Decimal(occurrence))
  }

  /** The result of fitting: how many items stay, whether injection is allowed, the count if known. */
  datatype Fit = Fit(kept: nat, allowed: bool, tokenCount: Option<nat>)

  /** Lowest-ranked items go first; `count(n)` counts the framed payload of the first n. */
  function FitFrom(count: nat -> Option<nat>, cap: nat, n: nat): Fit {
    match count(n)
    case None => Fit(n, false, None)
    case Some(c) => if c <= cap || n == 0 then Fit(n, true, Some(c)) else FitFrom(count, cap, n - 1)
  }

  class PackBuilder {
    const hash: string -> string
    const cap: nat
    var occurrences: map<string, nat>

    constructor (hash: string -> string, cap: nat)
      ensures this.hash == hash && this.cap == cap && occurrences == map[]
    {
      this.hash, this.cap, occurrences := hash, cap, map[];
    }

    method FitItems(count: nat -> Option<nat>, items: nat) returns (fit: Fit)
      ensures fit == FitFrom(count, cap, items)
    {
      var kept: nat := items;
      while true
        invariant kept <= items && FitFrom(count, cap, kept) == FitFrom(count, cap, items)
        decreases kept
      {
        var c := count(kept);
        if c.None? { return Fit(kept, false, None); }
        if c.value <= cap || kept == 0 { return Fit(kept, true, c); }
        kept := kept - 1;
      }
    }

    /** The pack, the items that stay in it, and whether it may be injected. */
    method Build(text: string, b: Behavior, items: seq<string>, tokenizer: Option<seq<string> -> Option<nat>>)
      returns (pack: Pack, kept: seq<string>, fit: Fit)
      modifies this
      ensures var base := Fingerprint(hash, text, b);
              && occurrences == NextOccurrence(old(occurrences), base)
              && pack == Pack(OccurrenceInputId(hash, base, occurrences[base]), text)
      ensures fit == FitOf(tokenizer, cap, items) && fit.kept <= |items| && kept == items[..fit.kept]
    {
      var base := Fingerprint(hash, text, b);
      var occurrence := (if base in occurrences then occurrences[base] else 0) + 1;
      occurrences := occurrences[base := occurrence];
      pack := Pack(OccurrenceInputId(hash, base, occurrence), text);
      if tokenizer.None? {
        fit := Fit(|items|, false, None);
      } else {
        fit := FitItems(CountOf(tokenizer.value, items), |items|);
      }
      BuiltPackFits(tokenizer, cap, items);
      kept := items[..fit.kept];
    }
  }

  /** The framed payload of the first n items, counted. */
  function CountOf(tokens: seq<string> -> Option<nat>, items: seq<string>): nat -> Option<nat> {
    (n: nat) => if n <= |items| then tokens(items[..n]) else None
  }

  function FitOf(tokenizer: Option<seq<string> -> Option<nat>>, cap: nat, items: seq<string>): Fit {
    match tokenizer
    case None => Fit(|items|, false, None)
    case Some(tokens) => FitFrom(CountOf(tokens, items), cap, |items|)
  }

  /**
   * A built pack keeps its best items: it may be injected exactly when what it keeps can be counted;
   * then it keeps no item or is under the cap, and every longer prefix was over it.
   */
  lemma BuiltPackFits(tokenizer: Option<seq<string> -> Option<nat>>, cap: nat, items: seq<string>)
    ensures var f := FitOf(tokenizer, cap, items);
            && f.kept <= |items|
            && (f.allowed <==> tokenizer.Some? && tokenizer.value(items[..f.kept]).Some?)
            && (f.allowed ==> f.tokenCount == tokenizer.value(items[..f.kept]) && (f.kept == 0 || f.tokenCount.value <= cap))
            && (tokenizer.None? ==> f.kept == |items|)
            && forall k :: f.kept < k <= |items| ==>
                 tokenizer.Some? && tokenizer.value(items[..k]).Some? && tokenizer.value(items[..k]).value > cap
  {
    if tokenizer.Some? {
      var count := CountOf(tokenizer.value, items);
      FitIsLongest(count, cap, |items|);
      forall k | FitOf(tokenizer, cap, items).kept < k <= |items|
        ensures tokenizer.value(items[..k]).Some? && tokenizer.value(items[..k]).value > cap
      {
        assert count(k).Some? && count(k).value > cap;
      }
    }
  }

  function NextOccurrence(m: map<string, nat>, base: string): (r: map<string, nat>)
    ensures base in r
  {
    m[base := (if base in m then m[base] else 0) + 1]
  }

  /**
   * Fitting keeps the longest allowed prefix it reaches: everything longer was over the cap. The
   * cap itself holds for an allowed pack exactly when an item was kept or the bare frame fits.
   */
  lemma {:induction false} FitIsLongest(count: nat -> Option<nat>, cap: nat, n: nat)
    ensures var f := FitFrom(count, cap, n);
            && f.kept <= n
            && (f.allowed <==> f.tokenCount.Some?) && f.tokenCount == count(f.kept)
            && (forall k: nat :: f.kept < k <= n ==> count(k).Some? && count(k).value > cap)
            && (f.allowed ==> (f.tokenCount.value <= cap <==> f.kept > 0 || (count(0).Some? && count(0).value <= cap)))
  {
    if count(n).Some? && !(count(n).value <= cap || n == 0) { FitIsLongest(count, cap, n - 1); }
  }

  // ---- the registry over whole runs -------------------------------------------------------------

  ghost predicate DistinctIds(pending: seq<PendingPack>) {
    forall i, j :: 0 <= i < j < |pending| ==> pending[i].pack.inputId != pending[j].pack.inputId
  }

  ghost predicate DistinctStrings(ids: seq<string>) {
    forall i, j :: 0 <= i < j < |ids| ==> ids[i] != ids[j]
  }

  /** Each registered id is pending, handed out, dropped or cleared, and only one of these. */
  ghost predicate Inv(r: Registry) {
    && DistinctIds(r.pending) && DistinctStrings(r.handed)
    && (forall id :: id in r.consumed <==> id in r.handed || id in r.dropped)
    && (forall id :: id in r.registered <==> id in PendingIds(r.pending) || id in r.handed || id in r.dropped || id in r.cleared)
    && (forall id :: id in PendingIds(r.pending) ==> id !in r.consumed && id !in r.cleared)
    && (forall id :: id in r.handed ==> id !in r.dropped && id !in r.cleared)
    && r.dropped !! r.cleared
  }

  datatype Event =
    | AddPack(pack: Pack, origin: Origin)
    | ContextCall(messages: seq<Message>)
    | AgentStarts(prompt: string)
    | RunSettles
    | ClearAll

  function Apply(keyOf: string -> string, r: Registry, e: Event): Registry {
    match e
    case AddPack(pack, origin) => Add(r, pack, origin).0
    case ContextCall(messages) => ConsumeMatching(keyOf, r, messages).0
    case AgentStarts(prompt) => ConsumeFresh(keyOf, r, prompt).0
    case RunSettles => DropUnmatched(r)
    case ClearAll => Clear(r)
  }

  function Run(keyOf: string -> string, r: Registry, events: seq<Event>): Registry
    decreases |events|
  {
    if events == [] then r else Run(keyOf, Apply(keyOf, r, events[0]), events[1..])
  }

  lemma AddKeepsInv(r: Registry, pack: Pack, origin: Origin)
    requires Inv(r)
    ensures Inv(Add(r, pack, origin).0)
  {
    var (s, ok) := Add(r, pack, origin);
    if ok {
      assert s.pending == r.pending + [PendingPack(pack, origin)];
      forall k | 0 <= k < |r.pending| ensures r.pending[k].pack.inputId != pack.inputId {
        assert r.pending[k] in r.pending;
      }
      PushedIds(r.pending, PendingPack(pack, origin));
      hide PendingIds;
    }
  }

  lemma PushedIds(pending: seq<PendingPack>, p: PendingPack)
    ensures PendingIds(pending + [p]) == PendingIds(pending) + {p.pack.inputId}
  {
    assert forall q :: q in pending + [p] <==> q in pending || q == p;
  }

  lemma TakenIds(pending: seq<PendingPack>, i: nat)
    requires DistinctIds(pending) && i < |pending|
    ensures var rest := pending[..i] + pending[i + 1..];
            DistinctIds(rest) && PendingIds(rest) == PendingIds(pending) - {pending[i].pack.inputId}
            && pending[i].pack.inputId in PendingIds(pending)
  {
    var rest := pending[..i] + pending[i + 1..];
    assert pending[i] in pending;
    forall k | 0 <= k < |rest| ensures rest[k] in pending && rest[k].pack.inputId != pending[i].pack.inputId {
    }
    forall p | p in pending && p.pack.inputId != pending[i].pack.inputId ensures p in rest {
      var k :| 0 <= k < |pending| && pending[k] == p;
      assert rest[if k < i then k else k - 1] == p;
    }
  }

  lemma HandOutKeepsInv(r: Registry, i: nat)
    requires Inv(r) && i < |r.pending|
    ensures Inv(HandOut(r, i))
  {
    TakenIds(r.pending, i);
    hide PendingIds, DistinctIds;
    assert forall id :: id in HandOut(r, i).handed <==> id in r.handed || id == r.pending[i].pack.inputId;
  }

  lemma SeenDoesNotMatter(r: Registry, seen: seq<Barrier>)
    requires Inv(r)
    ensures Inv(r.(seen := seen))
  {
    hide PendingIds, DistinctIds, DistinctStrings;
  }

  lemma StepKeepsInv(keyOf: string -> string, r: Registry, e: Event)
    requires Inv(r)
    ensures Inv(Apply(keyOf, r, e))
  {
    match e {
      case AddPack(pack, origin) => AddKeepsInv(r, pack, origin);
      case ContextCall(messages) =>
        hide Inv, RecordCount, KeyIndex, Seen;
        var text := LastUser(messages);
        if text.Some? {
          var seen := RecordCount(r.seen, keyOf(text.value), CountUsers(messages));
          SeenDoesNotMatter(r, seen);
          var i := FirstMatch(keyOf, r.pending, keyOf(text.value), false);
          if i.Some? { HandOutKeepsInv(r.(seen := seen), i.value); }
        }
      case AgentStarts(prompt) =>
        hide Inv;
        var i := FirstMatch(keyOf, r.pending, keyOf(prompt), true);
        if i.Some? { HandOutKeepsInv(r, i.value); }
      case RunSettles => EmptyIds();
      case ClearAll => EmptyIds();
    }
  }

  lemma EmptyIds()
    ensures PendingIds([]) == {}
  {
  }

  lemma {:induction false} RunKeepsInv(keyOf: string -> string, r: Registry, events: seq<Event>)
    requires Inv(r)
    ensures Inv(Run(keyOf, r, events))
    decreases |events|
  {
    hide Inv, Apply;
    if events != [] {
      StepKeepsInv(keyOf, r, events[0]);
      RunKeepsInv(keyOf, Apply(keyOf, r, events[0]), events[1..]);
    }
  }

  /**
   * Over any run no id is handed out twice, and every registered pack is pending, handed out,
   * dropped at a settle or cleared, and exactly one of these.
   */
  lemma EachPackIsHandedOutOnce(keyOf: string -> string, events: seq<Event>, id: string)
    ensures var r := Run(keyOf, Empty, events);
            && (forall i, j :: 0 <= i < j < |r.handed| ==> r.handed[i] != r.handed[j])
            && (id in r.registered <==> id in PendingIds(r.pending) || id in r.handed || id in r.dropped || id in r.cleared)
            && !(id in PendingIds(r.pending) && (id in r.handed || id in r.dropped || id in r.cleared))
            && !(id in r.handed && (id in r.dropped || id in r.cleared))
            && !(id in r.dropped && id in r.cleared)
  {
    assert Inv(Empty);
    RunKeepsInv(keyOf, Empty, events);
    hide DistinctIds, PendingIds;
  }

  /** What is handed out was the oldest pack pending for that text, and only that one left. */
  lemma OldestMatchingPackIsHandedOut(keyOf: string -> string, r: Registry, messages: seq<Message>)
    requires ConsumeMatching(keyOf, r, messages).1.Matched?
    ensures var (s, m) := ConsumeMatching(keyOf, r, messages);
            exists i :: && 0 <= i < |r.pending| && r.pending[i].pack == m.pack
                        && keyOf(m.pack.rawText) == keyOf(LastUser(messages).value)
                        && (forall k :: 0 <= k < i ==> keyOf(r.pending[k].pack.rawText) != keyOf(LastUser(messages).value))
                        && s.pending == r.pending[..i] + r.pending[i + 1..]
  {
    var i := FirstMatch(keyOf, r.pending, keyOf(LastUser(messages).value), false).value;
    hide RecordCount, KeyIndex;
    assert r.pending[i].pack == ConsumeMatching(keyOf, r, messages).1.pack;
  }

  // ---- replays -----------------------------------------------------------------------------------

  ghost predicate SeenOk(seen: seq<Barrier>) {
    && |seen| <= MAX_KEYS
    && (forall i, j :: 0 <= i < j < |seen| ==> seen[i].key != seen[j].key)
    && (forall i :: 0 <= i < |seen| ==> |seen[i].counts| <= MAX_COUNTS_PER_KEY)
    && (forall i, a, b :: 0 <= i < |seen| && 0 <= a < b < |seen[i].counts| ==> seen[i].counts[a] != seen[i].counts[b])
  }

  ghost predicate Holds(seen: seq<Barrier>, key: string, count: nat) {
    exists b :: b in seen && b.key == key && count in b.counts
  }

  lemma SeenIff(seen: seq<Barrier>, key: string, count: nat)
    requires SeenOk(seen)
    ensures Seen(seen, key, count) <==> Holds(seen, key, count)
  {
    var i := KeyIndex(seen, key);
    if i.Some? {
      assert seen[i.value] in seen;
      if Holds(seen, key, count) {
        var b :| b in seen && b.key == key && count in b.counts;
        var k :| 0 <= k < |seen| && seen[k] == b;
        assert k == i.value;
      }
    }
  }

  /** Recording is what forgets: the key that came first, or the count that came first. */
  ghost predicate Forgets(seen: seq<Barrier>, key: string, count: nat, newKey: string) {
    || (|seen| >= MAX_KEYS && KeyIndex(seen, newKey).None? && seen[0].key == key)
    || (newKey == key && KeyIndex(seen, key).Some?
        && var counts := seen[KeyIndex(seen, key).value].counts;
           |counts| >= MAX_COUNTS_PER_KEY && counts[0] == count)
  }

  lemma RecordKeepsSeenOk(seen: seq<Barrier>, key: string, count: nat)
    requires SeenOk(seen)
    ensures SeenOk(RecordCount(seen, key, count))
    ensures Holds(RecordCount(seen, key, count), key, count)
  {
    var room, after := MakeRoom(seen, key), RecordCount(seen, key, count);
    var i := KeyIndex(room, key);
    if i.None? {
      assert after[|room|] in after;
      assert forall k :: 0 <= k < |room| ==> room[k] in room;
    } else {
      assert after[i.value] in after;
      CountsStayDistinct(room[i.value].counts, count);
    }
  }

  lemma CountsStayDistinct(counts: seq<nat>, count: nat)
    requires |counts| <= MAX_COUNTS_PER_KEY && forall a, b :: 0 <= a < b < |counts| ==> counts[a] != counts[b]
    ensures var after := AddCount(counts, count);
            && count in after && |after| <= MAX_COUNTS_PER_KEY
            && (forall a, b :: 0 <= a < b < |after| ==> after[a] != after[b])
            && (forall c :: c in counts && !(|counts| >= MAX_COUNTS_PER_KEY && c == counts[0]) ==> c in after)
            && (|counts| >= MAX_COUNTS_PER_KEY && counts[0] != count ==> counts[0] !in after)
  {
    var kept := if |counts| >= MAX_COUNTS_PER_KEY then counts[1..] else counts;
    if |counts| >= MAX_COUNTS_PER_KEY {
      assert counts == [counts[0]] + kept;
    }
  }

  /** A remembered message is forgotten by a later one exactly in the two cases of `Forgets`. */
  lemma ForgottenIff(seen: seq<Barrier>, key: string, count: nat, newKey: string, newCount: nat)
    requires SeenOk(seen) && Holds(seen, key, count) && !Holds(seen, newKey, newCount)
    ensures !Holds(RecordCount(seen, newKey, newCount), key, count) <==> Forgets(seen, key, count, newKey)
  {
    var b :| b in seen && b.key == key && count in b.counts;
    var k :| 0 <= k < |seen| && seen[k] == b;
    var at := KeyIndex(seen, newKey);
    if at.None? {
      NewKeyForgets(seen, k, count, newKey, newCount);
    } else {
      OldKeyForgets(seen, k, count, newKey, newCount);
    }
  }

  lemma HoldsAt(seen: seq<Barrier>, k: nat, count: nat)
    requires SeenOk(seen) && k < |seen|
    ensures Holds(seen, seen[k].key, count) <==> count in seen[k].counts
  {
    assert seen[k] in seen;
    if Holds(seen, seen[k].key, count) {
      var b :| b in seen && b.key == seen[k].key && count in b.counts;
      var j :| 0 <= j < |seen| && seen[j] == b;
    }
  }

  lemma NewKeyForgets(seen: seq<Barrier>, k: nat, count: nat, newKey: string, newCount: nat)
    requires SeenOk(seen) && k < |seen| && count in seen[k].counts && KeyIndex(seen, newKey).None?
    ensures !Holds(RecordCount(seen, newKey, newCount), seen[k].key, count) <==> Forgets(seen, seen[k].key, count, newKey)
  {
    var room, after := MakeRoom(seen, newKey), RecordCount(seen, newKey, newCount);
    RecordKeepsSeenOk(seen, newKey, newCount);
    assert seen[k] in seen;
    assert KeyIndex(room, newKey).None?;
    assert after == room + [Barrier(newKey, AddCount([], newCount))];
    if |seen| < MAX_KEYS {
      assert after[k] == seen[k];
      HoldsAt(after, k, count);
    } else if k > 0 {
      assert after[k - 1] == seen[k];
      HoldsAt(after, k - 1, count);
    } else {
      forall b | b in after ensures b.key != seen[0].key {
      }
    }
  }

  lemma OldKeyForgets(seen: seq<Barrier>, k: nat, count: nat, newKey: string, newCount: nat)
    requires SeenOk(seen) && k < |seen| && count in seen[k].counts && KeyIndex(seen, newKey).Some?
    requires !Holds(seen, newKey, newCount)
    ensures !Holds(RecordCount(seen, newKey, newCount), seen[k].key, count) <==> Forgets(seen, seen[k].key, count, newKey)
  {
    var after := RecordCount(seen, newKey, newCount);
    var i := KeyIndex(seen, newKey).value;
    RecordKeepsSeenOk(seen, newKey, newCount);
    HoldsAt(after, k, count);
    HoldsAt(seen, i, newCount);
    if k == i {
      CountsStayDistinct(seen[i].counts, newCount);
    } else {
      assert after[k] == seen[k];
      assert seen[k].key != newKey;
    }
  }

  /** What one context call leaves remembered. */
  lemma ContextCallRemembers(keyOf: string -> string, r: Registry, messages: seq<Message>)
    requires SeenOk(r.seen) && LastUser(messages).Some?
    ensures var s := ConsumeMatching(keyOf, r, messages).0;
            SeenOk(s.seen) && Holds(s.seen, keyOf(LastUser(messages).value), CountUsers(messages))
  {
    var key, count := keyOf(LastUser(messages).value), CountUsers(messages);
    SeenIff(r.seen, key, count);
    RecordKeepsSeenOk(r.seen, key, count);
    hide RecordCount, SeenOk, Holds, KeyIndex, Seen;
  }

  /** Whether an event forgets a remembered message. */
  ghost predicate EventForgets(keyOf: string -> string, r: Registry, e: Event, key: string, count: nat) {
    e.ContextCall? && LastUser(e.messages).Some?
    && var newKey := keyOf(LastUser(e.messages).value);
       !Seen(r.seen, newKey, CountUsers(e.messages)) && Forgets(r.seen, key, count, newKey)
  }

  ghost predicate NeverForgets(keyOf: string -> string, r: Registry, events: seq<Event>, key: string, count: nat)
    decreases |events|
  {
    events != [] ==>
      !EventForgets(keyOf, r, events[0], key, count) && NeverForgets(keyOf, Apply(keyOf, r, events[0]), events[1..], key, count)
  }

  lemma StepRemembers(keyOf: string -> string, r: Registry, e: Event, key: string, count: nat)
    requires SeenOk(r.seen) && Holds(r.seen, key, count)
    ensures SeenOk(Apply(keyOf, r, e).seen)
    ensures Holds(Apply(keyOf, r, e).seen, key, count) <==> !EventForgets(keyOf, r, e, key, count)
  {
    hide SeenOk, Holds, RecordCount, KeyIndex, FirstMatch;
    if e.ContextCall? && LastUser(e.messages).Some? {
      var newKey, newCount := keyOf(LastUser(e.messages).value), CountUsers(e.messages);
      SeenIff(r.seen, newKey, newCount);
      if !Seen(r.seen, newKey, newCount) {
        RecordKeepsSeenOk(r.seen, newKey, newCount);
        ForgottenIff(r.seen, key, count, newKey, newCount);
      }
    }
  }

  /**
   * Tool-loop replays: once a provider call was seen, the same last text with the same number of
   * user messages is handed nothing, through any events that do not forget it.
   */
  lemma {:induction false} ReplaysGetNothing(keyOf: string -> string, r: Registry, events: seq<Event>, messages: seq<Message>)
    requires LastUser(messages).Some? && SeenOk(r.seen)
    requires Holds(r.seen, keyOf(LastUser(messages).value), CountUsers(messages))
    requires NeverForgets(keyOf, r, events, keyOf(LastUser(messages).value), CountUsers(messages))
    ensures var s := Run(keyOf, r, events);
            ConsumeMatching(keyOf, s, messages) == (s, SameOccurrence)
    decreases |events|
  {
    var key, count := keyOf(LastUser(messages).value), CountUsers(messages);
    hide SeenOk, Holds, Apply, EventForgets;
    if events == [] {
      SeenIff(r.seen, key, count);
    } else {
      StepRemembers(keyOf, r, events[0], key, count);
      ReplaysGetNothing(keyOf, Apply(keyOf, r, events[0]), events[1..], messages);
    }
  }

  lemma StepKeepsSeenOk(keyOf: string -> string, r: Registry, e: Event)
    requires SeenOk(r.seen)
    ensures SeenOk(Apply(keyOf, r, e).seen)
  {
    hide SeenOk, RecordCount, KeyIndex, FirstMatch, Seen;
    if e.ContextCall? && LastUser(e.messages).Some? {
      RecordKeepsSeenOk(r.seen, keyOf(LastUser(e.messages).value), CountUsers(e.messages));
    }
  }

  lemma {:induction false} RunKeepsSeenOk(keyOf: string -> string, r: Registry, events: seq<Event>)
    requires SeenOk(r.seen)
    ensures SeenOk(Run(keyOf, r, events).seen)
    decreases |events|
  {
    hide SeenOk, Apply;
    if events != [] {
      StepKeepsSeenOk(keyOf, r, events[0]);
      RunKeepsSeenOk(keyOf, Apply(keyOf, r, events[0]), events[1..]);
    }
  }

  /** From a new registry: any run, a provider call, any run that does not forget it, the same call again. */
  lemma ReplayAfterAnyRunGetsNothing(keyOf: string -> string, before: seq<Event>, messages: seq<Message>, after: seq<Event>)
    requires LastUser(messages).Some?
    requires var called := ConsumeMatching(keyOf, Run(keyOf, Empty, before), messages).0;
             NeverForgets(keyOf, called, after, keyOf(LastUser(messages).value), CountUsers(messages))
    ensures var called := ConsumeMatching(keyOf, Run(keyOf, Empty, before), messages).0;
            ConsumeMatching(keyOf, Run(keyOf, called, after), messages).1 == SameOccurrence
  {
    RunKeepsSeenOk(keyOf, Empty, before);
    ContextCallRemembers(keyOf, Run(keyOf, Empty, before), messages);
    ReplaysGetNothing(keyOf, ConsumeMatching(keyOf, Run(keyOf, Empty, before), messages).0, after, messages);
  }

  // ---- ids of built packs ----------------------------------------------------------------------------

  ghost predicate HexHash(hash: string -> string) {
    && (forall a, b :: hash(a) == hash(b) ==> a == b)
    && (forall a :: forall c :: c in hash(a) ==> '0' <= c <= '9' || 'a' <= c <= 'f')
  }

  lemma {:induction false} DecimalInjective(m: nat, n: nat)
    requires Decimal(m) == Decimal(n)
    ensures m == n
  {
    var a, b := Decimal(m), Decimal(n);
    DecimalLength(m);
    DecimalLength(n);
    assert a[|a| - 1] == b[|b| - 1];
    if m >= 10 && n >= 10 {
      assert Decimal(m / 10) == a[..|a| - 1] && Decimal(n / 10) == b[..|b| - 1];
      DecimalInjective(m / 10, n / 10);
    }
  }

  lemma {:induction false} DecimalLength(n: nat)
    ensures |Decimal(n)| >= 1 && (n >= 10 <==> |Decimal(n)| >= 2)
    ensures Decimal(n)[|Decimal(n)| - 1] == ('0' as int + n % 10) as char
    ensures forall c :: c in Decimal(n) ==> '0' <= c <= '9'
  {
    if n >= 10 { DecimalLength(n / 10); }
  }

  predicate Lacks(s: string, c: char) {
    forall x :: x in s ==> x != c
  }

  lemma NotShorter(a: string, b: string, x: string, y: string, sep: char)
    requires Lacks(b, sep) && a + [sep] + x == b + [sep] + y
    ensures |b| <= |a|
  {
    forall i | 0 <= i < |b| ensures (a + [sep] + x)[i] != sep {
      assert (b + [sep] + y)[i] == b[i] && b[i] in b;
    }
    assert (a + [sep] + x)[|a|] == sep;
  }

  /** A separator that neither first part contains splits a text in one way only. */
  lemma SplitAtFirst(a: string, b: string, x: string, y: string, sep: char)
    requires Lacks(a, sep) && Lacks(b, sep) && a + [sep] + x == b + [sep] + y
    ensures a == b && x == y
  {
    NotShorter(a, b, x, y, sep);
    NotShorter(b, a, y, x, sep);
    var l, r := a + [sep] + x, b + [sep] + y;
    assert a == l[..|a|] && b == r[..|b|];
    assert x == l[|a| + 1..] && y == r[|b| + 1..];
  }

  lemma NotShorterBehind(a: string, b: string, x: string, y: string, sep: char)
    requires Lacks(x, sep) && a + [sep] + x == b + [sep] + y
    ensures |b| <= |a|
  {
    forall i | |a| < i < |a + [sep] + x| ensures (a + [sep] + x)[i] != sep {
      assert (a + [sep] + x)[i] == x[i - |a| - 1] && x[i - |a| - 1] in x;
    }
    assert (b + [sep] + y)[|b|] == sep;
  }

  /** Nor does one that neither second part contains. */
  lemma SplitAtLast(a: string, b: string, x: string, y: string, sep: char)
    requires Lacks(x, sep) && Lacks(y, sep) && a + [sep] + x == b + [sep] + y
    ensures a == b && x == y
  {
    NotShorterBehind(a, b, x, y, sep);
    NotShorterBehind(b, a, y, x, sep);
    var l, r := a + [sep] + x, b + [sep] + y;
    assert a == l[..|a|] && b == r[..|b|];
    assert x == l[|a| + 1..] && y == r[|b| + 1..];
  }

  lemma BehaviorsDiffer(a: Behavior, b: Behavior)
    ensures Lacks(BehaviorText(a), '\0')
    ensures BehaviorText(a) == BehaviorText(b) ==> a == b
  {
    assert |"steer"| == 5 && |"followUp"| == 8 && |""| == 0;
  }

  /** Two inputs share a fingerprint only when text and streaming behavior are the same. */
  lemma FingerprintNamesTheInput(hash: string -> string, s: string, a: Behavior, t: string, b: Behavior)
    requires HexHash(hash)
    ensures Fingerprint(hash, s, a) == Fingerprint(hash, t, b) ==> s == t && a == b
  {
    if Fingerprint(hash, s, a) == Fingerprint(hash, t, b) {
      assert s + "\0" + BehaviorText(a) == t + "\0" + BehaviorText(b);
      BehaviorsDiffer(a, b);
      BehaviorsDiffer(b, a);
      SplitAtLast(s, t, BehaviorText(a), BehaviorText(b), '\0');
    }
  }

  lemma OccurrenceText(base: string, n: nat)
    requires forall c :: c in base ==> '0' <= c <= '9' || 'a' <= c <= 'f'
    ensures Lacks(base + "#occ:" + Decimal(n), '\0') && Lacks(base, '#')
    ensures base + "#occ:" + Decimal(n) == base + ['#'] + ("occ:" + Decimal(n))
  {
    DecimalLength(n);
    hide Decimal;
    forall c | c in base + "#occ:" + Decimal(n) ensures c != '\0' {
      assert c in base || c in "#occ:" || c in Decimal(n);
    }
    assert "#occ:" == ['#'] + "occ:";
  }

  /** Occurrence ids are unique across inputs and across repeats of one input. */
  lemma OccurrenceIdsDiffer(hash: string -> string, s: string, a: Behavior, m: nat, t: string, b: Behavior, n: nat)
    requires HexHash(hash) && m >= 1 && n >= 1
    requires OccurrenceInputId(hash, Fingerprint(hash, s, a), m) == OccurrenceInputId(hash, Fingerprint(hash, t, b), n)
    ensures Fingerprint(hash, s, a) == Fingerprint(hash, t, b) && m == n
  {
    var x, y := Fingerprint(hash, s, a), Fingerprint(hash, t, b);
    OccurrenceText(x, m);
    OccurrenceText(y, n);
    SameHash(hash, x + "#occ:" + Decimal(m), y + "#occ:" + Decimal(n));
    hide Lacks, Decimal, Fingerprint, HexHash;
    if m == 1 && n > 1 {
      FirstIsNoRepeat(hash, s, a, y, n);
    } else if m > 1 && n == 1 {
      FirstIsNoRepeat(hash, t, b, x, m);
    } else if m > 1 {
      RepeatsDiffer(x, m, y, n);
    }
  }

  lemma SameHash(hash: string -> string, a: string, b: string)
    requires HexHash(hash)
    ensures hash(a) == hash(b) ==> a == b
  {
  }

  lemma RepeatsDiffer(x: string, m: nat, y: string, n: nat)
    requires Lacks(x, '#') && Lacks(y, '#')
    requires x + ['#'] + ("occ:" + Decimal(m)) == y + ['#'] + ("occ:" + Decimal(n))
    ensures x == y && m == n
  {
    hide Decimal;
    SplitAtFirst(x, y, "occ:" + Decimal(m), "occ:" + Decimal(n), '#');
    assert Decimal(m) == ("occ:" + Decimal(m))[4..] && Decimal(n) == ("occ:" + Decimal(n))[4..];
    DecimalInjective(m, n);
  }

  lemma FirstIsNoRepeat(hash: string -> string, s: string, a: Behavior, base: string, n: nat)
    requires HexHash(hash) && Lacks(base + "#occ:" + Decimal(n), '\0')
    ensures Fingerprint(hash, s, a) != hash(base + "#occ:" + Decimal(n))
  {
    var text := s + "\0" + BehaviorText(a);
    assert text[|s|] == '\0' && text[|s|] in text;
  }

  /** A session's retrievals: every pack is built, then registered. */
  datatype Session = Session(registry: Registry, occurrences: map<string, nat>)

  datatype SessionEvent = Retrieve(text: string, behavior: Behavior) | Use(e: Event)

  function BuiltPack(hash: string -> string, s: Session, text: string, b: Behavior): Pack {
    var base := Fingerprint(hash, text, b);
    Pack(OccurrenceInputId(hash, base, NextOccurrence(s.occurrences, base)[base]), text)
  }

  function OriginOf(b: Behavior): Origin {
    if b == NoBehavior then FreshTurn else Queued
  }

  function SessionApply(hash: string -> string, keyOf: string -> string, s: Session, e: SessionEvent): Session {
    match e
    case Use(event) => if event.AddPack? then s else s.(registry := Apply(keyOf, s.registry, event))
    case Retrieve(text, b) =>
      Session(Add(s.registry, BuiltPack(hash, s, text, b), OriginOf(b)).0,
              NextOccurrence(s.occurrences, Fingerprint(hash, text, b)))
  }

  function SessionRun(hash: string -> string, keyOf: string -> string, s: Session, events: seq<SessionEvent>): Session
    decreases |events|
  {
    if events == [] then s else SessionRun(hash, keyOf, SessionApply(hash, keyOf, s, events[0]), events[1..])
  }

  ghost predicate Minted(hash: string -> string, occurrences: map<string, nat>, id: string) {
    exists text, b, n: nat :: IsMint(hash, occurrences, id, text, b, n)
  }

  predicate IsMint(hash: string -> string, occurrences: map<string, nat>, id: string, text: string, b: Behavior, n: nat) {
    var base := Fingerprint(hash, text, b);
    base in occurrences && 1 <= n <= occurrences[base] && id == OccurrenceInputId(hash, base, n)
  }

  ghost predicate SessionInv(hash: string -> string, s: Session) {
    Inv(s.registry) && forall id :: id in s.registry.registered ==> Minted(hash, s.occurrences, id)
  }

  lemma MintedGrows(hash: string -> string, occurrences: map<string, nat>, base: string, id: string)
    requires Minted(hash, occurrences, id)
    ensures Minted(hash, NextOccurrence(occurrences, base), id)
  {
    var text, b, n: nat :| IsMint(hash, occurrences, id, text, b, n);
    assert IsMint(hash, NextOccurrence(occurrences, base), id, text, b, n);
  }

  lemma BuiltIsNew(hash: string -> string, s: Session, text: string, b: Behavior)
    requires HexHash(hash) && SessionInv(hash, s)
    ensures BuiltPack(hash, s, text, b).inputId !in s.registry.registered
    ensures Minted(hash, NextOccurrence(s.occurrences, Fingerprint(hash, text, b)), BuiltPack(hash, s, text, b).inputId)
  {
    var base := Fingerprint(hash, text, b);
    var id := BuiltPack(hash, s, text, b).inputId;
    var n := NextOccurrence(s.occurrences, base)[base];
    hide Fingerprint, OccurrenceInputId, HexHash, Inv;
    if Minted(hash, s.occurrences, id) {
      var t, c, m: nat :| IsMint(hash, s.occurrences, id, t, c, m);
      OccurrenceIdsDiffer(hash, text, b, n, t, c, m);
    }
    assert IsMint(hash, NextOccurrence(s.occurrences, base), id, text, b, n);
  }

  /** What was never registered is neither consumed nor pending. */
  lemma UnregisteredIsAdmitted(r: Registry, pack: Pack, origin: Origin)
    requires Inv(r) && pack.inputId !in r.registered
    ensures Add(r, pack, origin).1 && Add(r, pack, origin).0.registered == r.registered + {pack.inputId}
  {
    hide PendingIds, DistinctIds;
  }

  lemma UseRegistersNothing(keyOf: string -> string, r: Registry, e: Event)
    requires !e.AddPack?
    ensures Apply(keyOf, r, e).registered == r.registered
  {
    hide RecordCount, FirstMatch, Seen;
  }

  lemma SessionStepKeepsInv(hash: string -> string, keyOf: string -> string, s: Session, e: SessionEvent)
    requires HexHash(hash) && SessionInv(hash, s)
    ensures SessionInv(hash, SessionApply(hash, keyOf, s, e))
    ensures e.Retrieve? ==> Add(s.registry, BuiltPack(hash, s, e.text, e.behavior), OriginOf(e.behavior)).1
  {
    hide HexHash, Inv, Minted, BuiltPack, Add, Apply;
    match e {
      case Use(event) =>
        StepKeepsInv(keyOf, s.registry, event);
        if !event.AddPack? { UseRegistersNothing(keyOf, s.registry, event); }
      case Retrieve(text, b) =>
        var pack, base := BuiltPack(hash, s, text, b), Fingerprint(hash, text, b);
        BuiltIsNew(hash, s, text, b);
        UnregisteredIsAdmitted(s.registry, pack, OriginOf(b));
        AddKeepsInv(s.registry, pack, OriginOf(b));
        forall id | id in s.registry.registered ensures Minted(hash, NextOccurrence(s.occurrences, base), id) {
          MintedGrows(hash, s.occurrences, base, id);
        }
    }
  }

  lemma {:induction false} SessionRunKeepsInv(hash: string -> string, keyOf: string -> string, s: Session, events: seq<SessionEvent>)
    requires HexHash(hash) && SessionInv(hash, s)
    ensures SessionInv(hash, SessionRun(hash, keyOf, s, events))
    decreases |events|
  {
    hide HexHash, SessionInv, SessionApply;
    if events != [] {
      SessionStepKeepsInv(hash, keyOf, s, events[0]);
      SessionRunKeepsInv(hash, keyOf, SessionApply(hash, keyOf, s, events[0]), events[1..]);
    }
  }

  /** Over any session a built pack is never rejected, however often the same input is repeated. */
  lemma BuiltPacksAreAdmitted(hash: string -> string, keyOf: string -> string, events: seq<SessionEvent>, text: string, b: Behavior)
    requires HexHash(hash)
    ensures var s := SessionRun(hash, keyOf, Session(Empty, map[]), events);
            Add(s.registry, BuiltPack(hash, s, text, b), OriginOf(b)).1
  {
    var start := Session(Empty, map[]);
    assert Inv(Empty);
    assert SessionInv(hash, start);
    SessionRunKeepsInv(hash, keyOf, start, events);
    SessionStepKeepsInv(hash, keyOf, SessionRun(hash, keyOf, start, events), Retrieve(text, b));
  }
}
