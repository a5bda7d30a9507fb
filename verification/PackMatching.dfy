/**
 * Which pack a provider call or an agent start is handed, said of the messages themselves; over whole
 * runs of a registry, and over whole sessions that build the packs it holds.
 */
module PackMatching {
  import opened Common
  import opened PackRegistry

  // ---- the messages ---------------------------------------------------------------------------------

  /** A user message after which no user message follows. */
  ghost predicate LastUserAt(messages: seq<Message>, i: nat) {
    i < |messages| && messages[i].User? && forall k :: i < k < |messages| ==> messages[k].Other?
  }

  lemma {:induction false} LastUserIff(messages: seq<Message>, i: nat)
    requires LastUserAt(messages, i)
    ensures LastUser(messages) == Some(messages[i].text)
    decreases |messages|
  {
    if i < |messages| - 1 { LastUserIff(messages[..|messages| - 1], i); }
  }

  lemma {:induction false} LastUserExists(messages: seq<Message>) returns (i: nat)
    ensures LastUser(messages).Some? ==> LastUserAt(messages, i)
    ensures LastUser(messages).None? <==> forall k :: 0 <= k < |messages| ==> messages[k].Other?
  {
    i := 0;
    if messages != [] {
      var n := |messages| - 1;
      if messages[n].User? { i := n; } else { i := LastUserExists(messages[..n]); }
    }
  }

  function UserIndices(messages: seq<Message>): set<int> {
    set i | 0 <= i < |messages| && messages[i].User?
  }

  /** The count is the number of user messages. */
  lemma {:induction false} CountUsersIs(messages: seq<Message>)
    ensures CountUsers(messages) == |UserIndices(messages)|
  {
    if messages != [] {
      var n := |messages| - 1;
      CountUsersIs(messages[..n]);
      assert UserIndices(messages) == UserIndices(messages[..n]) + if messages[n].User? then {n} else {};
    }
  }

  // ---- one provider call -----------------------------------------------------------------------------

  /** The pending pack that comes first for a key, or, for `freshOnly`, the first fresh one. */
  ghost predicate FirstFor(keyOf: string -> string, pending: seq<PendingPack>, key: string, freshOnly: bool, j: nat) {
    && j < |pending| && Fits(keyOf, pending[j], key, freshOnly)
    && forall k :: 0 <= k < j ==> !Fits(keyOf, pending[k], key, freshOnly)
  }

  predicate Fits(keyOf: string -> string, p: PendingPack, key: string, freshOnly: bool) {
    keyOf(p.pack.rawText) == key && (freshOnly ==> p.origin == FreshTurn)
  }

  /** One pack left the pending ones, for good. */
  ghost predicate HandsOut(r: Registry, s: Registry, j: nat) {
    && j < |r.pending|
    && s.pending == r.pending[..j] + r.pending[j + 1..] && s.handed == r.handed + [r.pending[j].pack.inputId]
    && s.consumed == r.consumed + {r.pending[j].pack.inputId}
    && s.registered == r.registered && s.dropped == r.dropped && s.cleared == r.cleared
  }

  /** What a call is handed when its last user message, the i-th, was not remembered at this count. */
  ghost predicate ServedRight(keyOf: string -> string, r: Registry, messages: seq<Message>, i: nat, s: Registry, m: Match)
    requires LastUserAt(messages, i)
  {
    var key := keyOf(messages[i].text);
    && Holds(s.seen, key, |UserIndices(messages)|)
    && if exists p :: p in r.pending && Fits(keyOf, p, key, false) then
         exists j: nat :: FirstFor(keyOf, r.pending, key, false, j) && m == Matched(r.pending[j].pack) && HandsOut(r, s, j)
       else
         m == NoPendingMatch && s == r.(seen := s.seen)
  }

  /**
   * A call without a user message changes nothing and a remembered one neither; any other call is
   * handed the first pending pack of its last user text, and is remembered.
   */
  lemma CallIsServedRight(keyOf: string -> string, r: Registry, messages: seq<Message>, i: nat)
    requires SeenOk(r.seen) && LastUserAt(messages, i)
    ensures var (s, m) := ConsumeMatching(keyOf, r, messages);
            if Holds(r.seen, keyOf(messages[i].text), |UserIndices(messages)|) then s == r && m == SameOccurrence
            else ServedRight(keyOf, r, messages, i, s, m)
  {
    LastUserIff(messages, i);
    CountUsersIs(messages);
    SeenIff(r.seen, keyOf(messages[i].text), CountUsers(messages));
    ContextCallRemembers(keyOf, r, messages);
    FirstMatchIsFirst(keyOf, r.pending, keyOf(messages[i].text), false);
    hide SeenOk, Holds, Seen, RecordCount, CountUsers, LastUser, KeyIndex, UserIndices, FirstMatch, LastUserAt, FirstFor;
    NewCall(keyOf, r, messages, messages[i].text);
    hide ConsumeMatching;
  }

  lemma FirstMatchIsFirst(keyOf: string -> string, pending: seq<PendingPack>, key: string, freshOnly: bool)
    ensures match FirstMatch(keyOf, pending, key, freshOnly)
            case Some(j) => FirstFor(keyOf, pending, key, freshOnly, j) && exists p :: p in pending && Fits(keyOf, p, key, freshOnly)
            case None => forall p :: p in pending ==> !Fits(keyOf, p, key, freshOnly)
  {
    var j := FirstMatch(keyOf, pending, key, freshOnly);
    if j.Some? { assert pending[j.value] in pending; }
  }

  /** Nothing but these happens to a call whose last user text is `text`. */
  lemma NewCall(keyOf: string -> string, r: Registry, messages: seq<Message>, text: string)
    requires LastUser(messages) == Some(text)
    ensures var (s, m) := ConsumeMatching(keyOf, r, messages);
            var j := FirstMatch(keyOf, r.pending, keyOf(text), false);
            if Seen(r.seen, keyOf(text), CountUsers(messages)) then s == r && m == SameOccurrence
            else if j.Some? then m == Matched(r.pending[j.value].pack) && HandsOut(r, s, j.value)
            else m == NoPendingMatch && s == r.(seen := s.seen)
  {
    hide Seen, RecordCount, CountUsers, LastUser;
  }

  lemma CallWithoutUser(keyOf: string -> string, r: Registry, messages: seq<Message>)
    requires forall k :: 0 <= k < |messages| ==> messages[k].Other?
    ensures ConsumeMatching(keyOf, r, messages) == (r, NoUserMessage)
  {
    var _ := LastUserExists(messages);
  }

  /** An agent start is handed the first fresh pack of its prompt, and never a queued one; no barrier moves. */
  lemma StartIsServedRight(keyOf: string -> string, r: Registry, prompt: string)
    ensures var (s, pack) := ConsumeFresh(keyOf, r, prompt);
            && s.seen == r.seen
            && if exists p :: p in r.pending && Fits(keyOf, p, keyOf(prompt), true) then
                 exists j: nat :: FirstFor(keyOf, r.pending, keyOf(prompt), true, j) && pack == Some(r.pending[j].pack) && HandsOut(r, s, j)
               else
                 s == r && pack == None
  {
    FirstMatchIsFirst(keyOf, r.pending, keyOf(prompt), true);
    hide FirstMatch;
  }

  // ---- whole runs ---------------------------------------------------------------------------------------

  /** The event is a provider call with this last user text and this number of user messages. */
  ghost predicate Calls(keyOf: string -> string, e: Event, key: string, count: nat) {
    e.ContextCall? && |UserIndices(e.messages)| == count
    && exists i: nat :: LastUserAt(e.messages, i) && keyOf(e.messages[i].text) == key
  }

  lemma RecordedOrHeld(seen: seq<Barrier>, newKey: string, newCount: nat, key: string, count: nat)
    requires SeenOk(seen) && Holds(RecordCount(seen, newKey, newCount), key, count)
    ensures Holds(seen, key, count) || (key == newKey && count == newCount)
  {
    var after := RecordCount(seen, newKey, newCount);
    var room := MakeRoom(seen, newKey);
    var b :| b in after && b.key == key && count in b.counts;
    assert forall x :: x in room ==> x in seen;
    var at := KeyIndex(room, newKey);
    if at.Some? { assert room[at.value] in seen; }
    if b in room { assert b in seen; }
  }

  lemma StepRemembersOnlyCalls(keyOf: string -> string, r: Registry, e: Event, key: string, count: nat)
    requires SeenOk(r.seen) && Holds(Apply(keyOf, r, e).seen, key, count)
    ensures Holds(r.seen, key, count) || Calls(keyOf, e, key, count)
  {
    hide SeenOk, Holds, Seen, RecordCount, KeyIndex, CountUsers, UserIndices;
    if e.ContextCall? {
      var i := LastUserExists(e.messages);
      if LastUser(e.messages).Some? {
        LastUserIff(e.messages, i);
        CountUsersIs(e.messages);
        var newKey := keyOf(e.messages[i].text);
        if Holds(RecordCount(r.seen, newKey, CountUsers(e.messages)), key, count) {
          RecordedOrHeld(r.seen, newKey, CountUsers(e.messages), key, count);
        }
      }
    }
  }

  lemma RunOfAppended(keyOf: string -> string, r: Registry, events: seq<Event>, e: Event)
    ensures Run(keyOf, r, events + [e]) == Apply(keyOf, Run(keyOf, r, events), e)
    decreases |events|
  {
    hide Apply;
    if events == [] {
      assert events + [e] == [e];
      assert Run(keyOf, r, [e]) == Run(keyOf, Apply(keyOf, r, e), []);
    } else {
      assert (events + [e])[1..] == events[1..] + [e];
      RunOfAppended(keyOf, Apply(keyOf, r, events[0]), events[1..], e);
    }
  }

  lemma LastStep(keyOf: string -> string, events: seq<Event>)
    requires events != []
    ensures var n := |events| - 1; Run(keyOf, Empty, events) == Apply(keyOf, Run(keyOf, Empty, events[..n]), events[n])
  {
    assert events == events[..|events| - 1] + [events[|events| - 1]];
    RunOfAppended(keyOf, Empty, events[..|events| - 1], events[|events| - 1]);
  }

  /** What is remembered is a call of the run. */
  lemma {:induction false} RememberedWasACall(keyOf: string -> string, events: seq<Event>, key: string, count: nat)
    requires Holds(Run(keyOf, Empty, events).seen, key, count)
    ensures exists e :: e in events && Calls(keyOf, e, key, count)
    decreases |events|
  {
    hide Apply, Calls, SeenOk;
    if events != [] {
      var n := |events| - 1;
      LastStep(keyOf, events);
      EmptySeenOk();
      RunKeepsSeenOk(keyOf, Empty, events[..n]);
      StepRemembersOnlyCalls(keyOf, Run(keyOf, Empty, events[..n]), events[n], key, count);
      if Holds(Run(keyOf, Empty, events[..n]).seen, key, count) {
        RememberedWasACall(keyOf, events[..n], key, count);
        var e :| e in events[..n] && Calls(keyOf, e, key, count);
        assert e in events;
      }
    }
  }

  lemma EmptySeenOk()
    ensures SeenOk(Empty.seen)
  {
  }

  /** After any run, the last user message at a number of user messages not seen before is handed its first pending pack. */
  lemma NewMessageGetsItsPack(keyOf: string -> string, events: seq<Event>, messages: seq<Message>, i: nat)
    requires LastUserAt(messages, i)
    requires forall e :: e in events ==> !Calls(keyOf, e, keyOf(messages[i].text), |UserIndices(messages)|)
    ensures var r := Run(keyOf, Empty, events);
            var (s, m) := ConsumeMatching(keyOf, r, messages);
            ServedRight(keyOf, r, messages, i, s, m)
  {
    hide Calls, SeenOk, ServedRight, Holds, UserIndices, ConsumeMatching;
    EmptySeenOk();
    RunKeepsSeenOk(keyOf, Empty, events);
    CallIsServedRight(keyOf, Run(keyOf, Empty, events), messages, i);
    if Holds(Run(keyOf, Empty, events).seen, keyOf(messages[i].text), |UserIndices(messages)|) {
      RememberedWasACall(keyOf, events, keyOf(messages[i].text), |UserIndices(messages)|);
    }
  }

  /** The event hands out this id for the text its pack was retrieved for; an agent start only a fresh one. */
  ghost predicate Serves(keyOf: string -> string, r: Registry, e: Event, id: string) {
    exists p :: p in r.pending && p.pack.inputId == id
      && match e
         case ContextCall(messages) => exists i: nat :: LastUserAt(messages, i) && keyOf(p.pack.rawText) == keyOf(messages[i].text)
         case AgentStarts(prompt) => keyOf(p.pack.rawText) == keyOf(prompt) && p.origin == FreshTurn
         case _ => false
  }

  lemma StepServes(keyOf: string -> string, r: Registry, e: Event, id: string)
    requires SeenOk(r.seen) && id !in r.handed && id in Apply(keyOf, r, e).handed
    ensures Serves(keyOf, r, e, id)
  {
    hide SeenOk, Holds, UserIndices, RecordCount, KeyIndex, Seen, ConsumeMatching, ConsumeFresh;
    if e.ContextCall? {
      var i := LastUserExists(e.messages);
      if LastUser(e.messages).None? {
        CallWithoutUser(keyOf, r, e.messages);
      } else {
        CallIsServedRight(keyOf, r, e.messages, i);
        var j: nat :| FirstFor(keyOf, r.pending, keyOf(e.messages[i].text), false, j) && HandsOut(r, Apply(keyOf, r, e), j);
        assert r.pending[j] in r.pending;
      }
    } else if e.AgentStarts? {
      StartIsServedRight(keyOf, r, e.prompt);
      var j: nat :| FirstFor(keyOf, r.pending, keyOf(e.prompt), true, j) && HandsOut(r, Apply(keyOf, r, e), j);
      assert r.pending[j] in r.pending;
    }
  }

  /** Every pack handed out in a run was handed to a call or an agent start of its own text. */
  lemma {:induction false} HandedOutForItsText(keyOf: string -> string, events: seq<Event>, id: string)
    requires id in Run(keyOf, Empty, events).handed
    ensures exists n :: 0 <= n < |events| && Serves(keyOf, Run(keyOf, Empty, events[..n]), events[n], id)
    decreases |events|
  {
    hide Apply, Serves, SeenOk;
    if events != [] {
      var n := |events| - 1;
      LastStep(keyOf, events);
      if id in Run(keyOf, Empty, events[..n]).handed {
        HandedOutForItsText(keyOf, events[..n], id);
        var m :| 0 <= m < n && Serves(keyOf, Run(keyOf, Empty, events[..n][..m]), events[..n][m], id);
        assert events[..n][..m] == events[..m] && events[..n][m] == events[m];
      } else {
        EmptySeenOk();
        RunKeepsSeenOk(keyOf, Empty, events[..n]);
        StepServes(keyOf, Run(keyOf, Empty, events[..n]), events[n], id);
      }
    }
  }

  /** After any run a pack is refused exactly when its id is pending, was handed out, or was dropped. */
  lemma RefusedIff(keyOf: string -> string, events: seq<Event>, pack: Pack, origin: Origin)
    ensures var r := Run(keyOf, Empty, events);
            var (s, ok) := Add(r, pack, origin);
            && (!ok <==> (exists p :: p in r.pending && p.pack.inputId == pack.inputId) || pack.inputId in r.handed || pack.inputId in r.dropped)
            && s.pending == (if ok then r.pending + [PendingPack(pack, origin)] else r.pending)
            && s.consumed == r.consumed && s.seen == r.seen && s.handed == r.handed
  {
    assert Inv(Empty);
    RunKeepsInv(keyOf, Empty, events);
    hide DistinctIds, DistinctStrings, Run;
  }

  // ---- whole sessions --------------------------------------------------------------------------------------

  function Begun(): Session {
    Session(Empty, map[])
  }

  lemma SessionOfAppended(hash: string -> string, keyOf: string -> string, s: Session, events: seq<SessionEvent>, e: SessionEvent)
    ensures SessionRun(hash, keyOf, s, events + [e]) == SessionApply(hash, keyOf, SessionRun(hash, keyOf, s, events), e)
    decreases |events|
  {
    hide SessionApply;
    if events == [] {
      assert events + [e] == [e];
      assert SessionRun(hash, keyOf, s, [e]) == SessionRun(hash, keyOf, SessionApply(hash, keyOf, s, e), []);
    } else {
      assert (events + [e])[1..] == events[1..] + [e];
      SessionOfAppended(hash, keyOf, SessionApply(hash, keyOf, s, events[0]), events[1..], e);
    }
  }

  /** The pending pack was retrieved for its text, fresh exactly when the input did not stream into a run. */
  ghost predicate RetrievedBy(e: SessionEvent, p: PendingPack) {
    e.Retrieve? && e.text == p.pack.rawText && (p.origin == FreshTurn <==> e.behavior == NoBehavior)
  }

  lemma StepPending(hash: string -> string, keyOf: string -> string, s: Session, e: SessionEvent, p: PendingPack)
    requires p in SessionApply(hash, keyOf, s, e).registry.pending
    ensures p in s.registry.pending || RetrievedBy(e, p)
  {
    hide RecordCount, KeyIndex, Seen, Fingerprint, OccurrenceInputId, FirstMatch;
  }

  lemma {:induction false} PendingWasRetrieved(hash: string -> string, keyOf: string -> string, events: seq<SessionEvent>, p: PendingPack)
    requires p in SessionRun(hash, keyOf, Begun(), events).registry.pending
    ensures exists e :: e in events && RetrievedBy(e, p)
    decreases |events|
  {
    hide SessionApply, RetrievedBy;
    if events != [] {
      var n := |events| - 1;
      assert events == events[..n] + [events[n]];
      SessionOfAppended(hash, keyOf, Begun(), events[..n], events[n]);
      StepPending(hash, keyOf, SessionRun(hash, keyOf, Begun(), events[..n]), events[n], p);
      if p in SessionRun(hash, keyOf, Begun(), events[..n]).registry.pending {
        PendingWasRetrieved(hash, keyOf, events[..n], p);
        var e :| e in events[..n] && RetrievedBy(e, p);
        assert e in events;
      }
    }
  }

  /** How often an input was retrieved. */
  function Retrievals(hash: string -> string, events: seq<SessionEvent>, base: string): nat {
    if events == [] then 0
    else
      var e := events[|events| - 1];
      Retrievals(hash, events[..|events| - 1], base) + if e.Retrieve? && Fingerprint(hash, e.text, e.behavior) == base then 1 else 0
  }

  lemma {:induction false} OccurrencesAreCounted(hash: string -> string, keyOf: string -> string, events: seq<SessionEvent>, base: string)
    ensures var m := SessionRun(hash, keyOf, Begun(), events).occurrences;
            (if base in m then m[base] else 0) == Retrievals(hash, events, base)
    decreases |events|
  {
    if events != [] {
      var n := |events| - 1;
      assert events == events[..n] + [events[n]];
      SessionOfAppended(hash, keyOf, Begun(), events[..n], events[n]);
      OccurrencesAreCounted(hash, keyOf, events[..n], base);
      hide SessionRun, Add, Apply, Fingerprint;
    }
  }

  /** In any session the first pack built for an input is named by its fingerprint, and the n-th by that and n. */
  lemma PackIsNamedByItsOccurrence(hash: string -> string, keyOf: string -> string, events: seq<SessionEvent>, text: string, b: Behavior)
    ensures var base := Fingerprint(hash, text, b);
            var n := 1 + Retrievals(hash, events, base);
            var pack := BuiltPack(hash, SessionRun(hash, keyOf, Begun(), events), text, b);
            pack.rawText == text && pack.inputId == (if n == 1 then base else hash(base + "#occ:" + Decimal(n)))
  {
    OccurrencesAreCounted(hash, keyOf, events, Fingerprint(hash, text, b));
    hide SessionRun, Fingerprint, Retrievals, Decimal;
  }

  /** In any session, an agent start is handed only what was retrieved for its prompt outside a streaming run. */
  lemma StartGetsItsFreshPack(hash: string -> string, keyOf: string -> string, events: seq<SessionEvent>, prompt: string)
    requires ConsumeFresh(keyOf, SessionRun(hash, keyOf, Begun(), events).registry, prompt).1.Some?
    ensures exists e :: e in events && e.Retrieve? && keyOf(e.text) == keyOf(prompt) && e.behavior == NoBehavior
  {
    var r := SessionRun(hash, keyOf, Begun(), events).registry;
    StartIsServedRight(keyOf, r, prompt);
    hide ConsumeFresh;
    var j: nat :| FirstFor(keyOf, r.pending, keyOf(prompt), true, j);
    assert r.pending[j] in r.pending;
    PendingWasRetrieved(hash, keyOf, events, r.pending[j]);
    var e :| e in events && RetrievedBy(e, r.pending[j]);
  }

  /**
   * In any session, a pack just retrieved is handed to the next agent start or provider call of its text,
   * when no earlier pack waits for that text and the call is not remembered; then it no longer waits.
   */
  lemma RetrievedPackIsServed(hash: string -> string, keyOf: string -> string, events: seq<SessionEvent>, text: string, b: Behavior, use: Event, i: nat)
    requires HexHash(hash)
    requires var s := SessionRun(hash, keyOf, Begun(), events);
             && (forall p :: p in s.registry.pending ==> keyOf(p.pack.rawText) != keyOf(text))
             && match use
                case ContextCall(messages) =>
                  && LastUserAt(messages, i) && keyOf(messages[i].text) == keyOf(text)
                  && !Holds(s.registry.seen, keyOf(text), |UserIndices(messages)|)
                case AgentStarts(prompt) => keyOf(prompt) == keyOf(text) && b == NoBehavior
                case _ => false
    ensures var s := SessionRun(hash, keyOf, Begun(), events);
            var id := BuiltPack(hash, s, text, b).inputId;
            var t := SessionRun(hash, keyOf, Begun(), events + [Retrieve(text, b)] + [Use(use)]);
            && id !in s.registry.handed && t.registry.handed == s.registry.handed + [id]
            && t.registry.pending == s.registry.pending
  {
    hide HexHash, SessionInv, Inv, Holds, SeenOk, UserIndices, BuiltPack, Add, SessionApply, ConsumeMatching, ConsumeFresh, LastUserAt;
    var s := SessionRun(hash, keyOf, Begun(), events);
    SessionOfAppended(hash, keyOf, Begun(), events, Retrieve(text, b));
    SessionOfAppended(hash, keyOf, Begun(), events + [Retrieve(text, b)], Use(use));
    BegunInv(hash);
    SessionRunKeepsInv(hash, keyOf, Begun(), events);
    SessionKeepsSeenOk(hash, keyOf, Begun(), events);
    RetrieveAppends(hash, keyOf, s, text, b);
    UseServes(hash, keyOf, s.registry, SessionApply(hash, keyOf, s, Retrieve(text, b)), BuiltPack(hash, s, text, b), text, b, use, i);
  }

  lemma BegunInv(hash: string -> string)
    ensures SessionInv(hash, Begun()) && SeenOk(Begun().registry.seen)
  {
  }

  lemma SessionStepKeepsSeenOk(hash: string -> string, keyOf: string -> string, s: Session, e: SessionEvent)
    requires SeenOk(s.registry.seen)
    ensures SeenOk(SessionApply(hash, keyOf, s, e).registry.seen)
  {
    hide SeenOk, Apply, BuiltPack, Fingerprint;
    if e.Use? { StepKeepsSeenOk(keyOf, s.registry, e.e); }
  }

  lemma {:induction false} SessionKeepsSeenOk(hash: string -> string, keyOf: string -> string, s: Session, events: seq<SessionEvent>)
    requires SeenOk(s.registry.seen)
    ensures SeenOk(SessionRun(hash, keyOf, s, events).registry.seen)
    decreases |events|
  {
    hide SeenOk, SessionApply;
    if events != [] {
      SessionStepKeepsSeenOk(hash, keyOf, s, events[0]);
      SessionKeepsSeenOk(hash, keyOf, SessionApply(hash, keyOf, s, events[0]), events[1..]);
    }
  }

  lemma RetrieveAppends(hash: string -> string, keyOf: string -> string, s: Session, text: string, b: Behavior)
    requires HexHash(hash) && SessionInv(hash, s)
    ensures var t := SessionApply(hash, keyOf, s, Retrieve(text, b)).registry;
            var pack := BuiltPack(hash, s, text, b);
            && pack.rawText == text && pack.inputId !in s.registry.handed
            && t.pending == s.registry.pending + [PendingPack(pack, if b == NoBehavior then FreshTurn else Queued)]
            && t.seen == s.registry.seen && t.handed == s.registry.handed
  {
    hide HexHash, Fingerprint, OccurrenceInputId, Minted, DistinctIds, DistinctStrings;
    BuiltIsNew(hash, s, text, b);
  }

  lemma UseServes(hash: string -> string, keyOf: string -> string, r: Registry, s: Session, pack: Pack, text: string, b: Behavior, use: Event, i: nat)
    requires pack.rawText == text && SeenOk(r.seen) && s.registry.seen == r.seen && s.registry.handed == r.handed
    requires s.registry.pending == r.pending + [PendingPack(pack, if b == NoBehavior then FreshTurn else Queued)]
    requires forall p :: p in r.pending ==> keyOf(p.pack.rawText) != keyOf(text)
    requires match use
             case ContextCall(messages) =>
               && LastUserAt(messages, i) && keyOf(messages[i].text) == keyOf(text)
               && !Holds(r.seen, keyOf(text), |UserIndices(messages)|)
             case AgentStarts(prompt) => keyOf(prompt) == keyOf(text) && b == NoBehavior
             case _ => false
    ensures var t := SessionApply(hash, keyOf, s, Use(use)).registry;
            t.handed == r.handed + [pack.inputId] && t.pending == r.pending
  {
    hide Holds, SeenOk, UserIndices, ConsumeMatching, ConsumeFresh, LastUserAt, FirstFor, HandsOut;
    var t := SessionApply(hash, keyOf, s, Use(use)).registry;
    assert s.registry.pending[|r.pending|] in s.registry.pending;
    if use.ContextCall? {
      CallIsServedRight(keyOf, s.registry, use.messages, i);
      var j: nat :| FirstFor(keyOf, s.registry.pending, keyOf(text), false, j) && HandsOut(s.registry, t, j);
      LastIsTaken(keyOf, r, s.registry, t, keyOf(text), false, j);
    } else {
      StartIsServedRight(keyOf, s.registry, use.prompt);
      var j: nat :| FirstFor(keyOf, s.registry.pending, keyOf(text), true, j) && HandsOut(s.registry, t, j);
      LastIsTaken(keyOf, r, s.registry, t, keyOf(text), true, j);
    }
  }

  lemma LastIsTaken(keyOf: string -> string, r: Registry, s: Registry, t: Registry, key: string, freshOnly: bool, j: nat)
    requires |s.pending| == |r.pending| + 1 && s.pending[..|r.pending|] == r.pending && s.handed == r.handed
    requires forall p :: p in r.pending ==> keyOf(p.pack.rawText) != key
    requires FirstFor(keyOf, s.pending, key, freshOnly, j) && HandsOut(s, t, j)
    ensures t.handed == r.handed + [s.pending[|r.pending|].pack.inputId] && t.pending == r.pending
  {
    var n := |r.pending|;
    forall k | 0 <= k < n ensures keyOf(s.pending[k].pack.rawText) != key {
      assert r.pending[k] == s.pending[..n][k] && r.pending[k] in r.pending;
    }
    assert s.pending[..n] + s.pending[n + 1..] == r.pending;
  }
}
