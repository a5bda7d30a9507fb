/**
 * Acknowledgments and local cleanup of the delivery state: which instant an entry keeps, where it came
 * from, and exactly what a cleanup removes.
 */
module BoardRetention {
  import opened Common
  import opened BoardState
  import opened BoardDelivery
  import opened BoardSafety

  // ---- one acknowledgment ----------------------------------------------------------------------------

  /** No other entry was touched, and none appeared. */
  ghost predicate OnlyAcked(f: Files, t: Files, id: string, now: int) {
    forall x :: x in t.mem.entries ==>
      if x.msgId != id then x in f.mem.entries
      else exists e :: e in f.mem.entries && e.ackedAt.None? && x == e.(ackedAt := Some(now))
  }

  ghost predicate NothingMuchNewer(es: seq<DeliveryEntry>, now: int) {
    now >= -ACK_RETENTION_MS && forall e :: e in es ==> Latest(e) - now <= ACK_RETENTION_MS
  }

  /** The first acknowledgment of an entry counts: an unknown or acknowledged one is left as it is. */
  lemma FirstAckCounts(f: Files, id: string, now: int, p: Persist)
    requires FilesOk(f)
    ensures var t := Ack(f, id, now, p);
            if exists e :: e in f.mem.entries && e.msgId == id && e.ackedAt.None? then
              && OnlyAcked(f, t, id, now) && t.mem.lastSeq == f.mem.lastSeq
              && t.disk == (if p == Fault(false) then f.disk else t.mem)
              && (|f.mem.entries| <= MAX_TRACKED_ENTRIES && NothingMuchNewer(f.mem.entries, now) ==>
                    exists e :: e in t.mem.entries && e.msgId == id && e.ackedAt == Some(now))
            else t == f
  {
    hide Saved, AcksRecent, Newest, UnreadCount;
    var es := f.mem.entries;
    var i := IndexOf(es, id);
    if i.Some? {
      var e := es[i.value];
      assert e in es;
      AtMostOne(es, e);
      if e.ackedAt.None? {
        var acked := e.(ackedAt := Some(now));
        var after := es[i.value := acked];
        SaveKeepsTheBacklog(after);
        AckedAmong(es, i.value, now);
        assert after[i.value] in after;
        if NothingMuchNewer(es, now) {
          NewestIsMaximum(after);
          assert Newest(after) - now <= ACK_RETENTION_MS by {
            var x :| Newest(after) == 0 || (x in after && Latest(x) == Newest(after));
            assert Newest(after) != 0 && x.msgId != id ==> x in es;
          }
        }
      }
    }
  }

  lemma AtMostOne(es: seq<DeliveryEntry>, e: DeliveryEntry)
    requires DistinctIds(es) && e in es
    ensures forall x :: x in es && x.msgId == e.msgId ==> x == e
  {
  }

  lemma AckedAmong(es: seq<DeliveryEntry>, i: nat, now: int)
    requires DistinctIds(es) && i < |es|
    ensures var after := es[i := es[i].(ackedAt := Some(now))];
            && DistinctIds(after)
            && forall x :: x in after ==> if x.msgId == es[i].msgId then x == es[i].(ackedAt := Some(now)) else x in es
  {
    var after := es[i := es[i].(ackedAt := Some(now))];
    forall x | x in after ensures if x.msgId == es[i].msgId then x == es[i].(ackedAt := Some(now)) else x in es {
      var k :| 0 <= k < |after| && after[k] == x;
      assert k != i ==> x == es[k];
    }
  }

  // ---- over whole runs -----------------------------------------------------------------------------------

  ghost function AcksOf(events: seq<Event>): set<(string, int)> {
    set e | e in events && e.AckMessage? :: (e.id, e.now)
  }

  ghost predicate Acked(acks: set<(string, int)>, es: seq<DeliveryEntry>) {
    forall e :: e in es && e.ackedAt.Some? ==> (e.msgId, e.ackedAt.value) in acks
  }

  ghost predicate FilesAcked(acks: set<(string, int)>, f: Files) {
    FilesOk(f) && Acked(acks, f.mem.entries) && Acked(acks, f.disk.entries)
  }

  lemma SavedAcked(acks: set<(string, int)>, f: Files, st: State, p: Persist)
    requires FilesAcked(acks, f) && Acked(acks, st.entries) && DistinctIds(st.entries) && DeliveredOrSkipped(st.entries)
    ensures FilesAcked(acks, Save(f, st, p))
  {
    SaveIsOk(f, st, p);
    SaveKeepsTheBacklog(st.entries);
    hide Saved, FilesOk, DistinctIds, AcksRecent, UnreadCount, DeliveredOrSkipped;
  }

  lemma EffectAcked(acks: set<(string, int)>, f: Files, e: Effect, p: Persist)
    requires FilesAcked(acks, f) && (e.Mark? ==> OneKind(e.entry) && e.entry.ackedAt.None?)
    ensures FilesAcked(acks, BoardDelivery.Perform(f, e, p))
  {
    hide Saved, Put, DistinctIds, UnreadCount;
    match e {
      case Hand(_) =>
      case Mark(entry) =>
        PutDistinct(f.mem.entries, entry);
        SavedAcked(acks, f, f.mem.(entries := Put(f.mem.entries, entry)), p);
      case MoveCursor(k) => SavedAcked(acks, f, f.mem.(lastSeq := Some(k)), p);
    }
  }

  lemma {:induction false} ExecuteAcked(acks: set<(string, int)>, cfg: Config, env: Env, f: Files, es: seq<Effect>, outcome: nat -> Persist, k: nat)
    requires FilesAcked(acks, f) && forall e :: e in es ==> RightEffect(cfg, env, e)
    ensures FilesAcked(acks, Execute(f, es, outcome, k))
    decreases |es|
  {
    hide FilesAcked, BoardDelivery.Perform, RightEntry, OneKind;
    if es != [] {
      assert RightEffect(cfg, env, es[0]);
      EffectAcked(acks, f, es[0], outcome(k));
      ExecuteAcked(acks, cfg, env, BoardDelivery.Perform(f, es[0], outcome(k)), es[1..], outcome, k + 1);
    }
  }

  lemma AckAcked(acks: set<(string, int)>, f: Files, id: string, now: int, p: Persist)
    requires FilesAcked(acks, f) && (id, now) in acks
    ensures FilesAcked(acks, Ack(f, id, now, p))
  {
    hide Saved, DistinctIds, UnreadCount, AcksRecent;
    AckKeepsOk(f, id, now, p);
    var i := IndexOf(f.mem.entries, id);
    if i.Some? && f.mem.entries[i.value].ackedAt.None? {
      AckedAmong(f.mem.entries, i.value, now);
      SaveKeepsTheBacklog(f.mem.entries[i.value := f.mem.entries[i.value].(ackedAt := Some(now))]);
    }
  }

  lemma CollectAcked(acks: set<(string, int)>, f: Files, now: int, p: Persist)
    requires FilesAcked(acks, f)
    ensures FilesAcked(acks, Collect(f, now, p))
  {
    FilterDistinct(f.mem.entries, SettledWithin(now));
    var kept := Filter(f.mem.entries, SettledWithin(now));
    SavedAcked(acks, f, f.mem.(entries := kept), p);
    hide Save, DistinctIds, UnreadCount;
  }

  lemma StepAcked(acks: set<(string, int)>, cfg: Config, s: Sys, e: Event)
    requires FilesAcked(acks, s.files) && (e.AckMessage? ==> (e.id, e.now) in acks)
    ensures FilesAcked(acks, Apply(cfg, s, e).files)
  {
    hide FilesAcked, CyclePlan, Execute, Ack, Collect, Touched, RightEffect;
    match e {
      case Cycle(env) =>
        CycleIsRight(cfg, env, s.files.mem);
        ExecuteAcked(acks, cfg, env, s.files, CyclePlan(cfg, env, s.files.mem), env.outcome, 0);
      case CrashDuring(env, n) =>
        CycleIsRight(cfg, env, s.files.mem);
        var plan := CyclePlan(cfg, env, s.files.mem);
        var part := plan[..Min(n, |plan|)];
        assert forall x :: x in part ==> x in plan;
        ExecuteAcked(acks, cfg, env, s.files, part, env.outcome, 0);
        RestartAcked(acks, BoardSafety.Perform(s, part, env));
      case Restart => RestartAcked(acks, s);
      case AckMessage(id, now, p) => AckAcked(acks, s.files, id, now, p);
      case CollectOld(now, p) => CollectAcked(acks, s.files, now, p);
      case _ =>
    }
  }

  lemma RestartAcked(acks: set<(string, int)>, s: Sys)
    requires FilesAcked(acks, s.files)
    ensures FilesAcked(acks, Restarted(s).files)
  {
  }

  lemma {:induction false} RunAcked(acks: set<(string, int)>, cfg: Config, s: Sys, events: seq<Event>)
    requires FilesAcked(acks, s.files) && AcksOf(events) <= acks
    ensures FilesAcked(acks, Run(cfg, s, events).files)
    decreases |events|
  {
    hide FilesAcked, Apply;
    if events != [] {
      assert events[0] in events && forall e :: e in events[1..] ==> e in events;
      assert events[0].AckMessage? ==> (events[0].id, events[0].now) in AcksOf(events);
      assert AcksOf(events[1..]) <= acks;
      StepAcked(acks, cfg, s, events[0]);
      RunAcked(acks, cfg, Apply(cfg, s, events[0]), events[1..]);
    }
  }

  /** In every run an acknowledged entry, in memory or on disk, has the instant of an acknowledgment of its message. */
  lemma AckedByAnEvent(cfg: Config, events: seq<Event>, e: DeliveryEntry)
    requires var f := Run(cfg, Init, events).files; e in f.mem.entries || e in f.disk.entries
    requires e.ackedAt.Some?
    ensures exists a :: a in events && a.AckMessage? && a.id == e.msgId && a.now == e.ackedAt.value
  {
    RunAcked(AcksOf(events), cfg, Init, events);
    hide Run, FilesOk;
    assert (e.msgId, e.ackedAt.value) in AcksOf(events);
  }

  // ---- local cleanup -----------------------------------------------------------------------------------------

  /** Settled, by its acknowledgment or else by its skip, longer ago than the retention period. */
  predicate IsPast(e: DeliveryEntry, now: int) {
    if e.ackedAt.Some? then now - e.ackedAt.value > ACK_RETENTION_MS
    else e.skippedAt.Some? && now - e.skippedAt.value > ACK_RETENTION_MS
  }

  function Past(now: int): DeliveryEntry -> bool {
    (e: DeliveryEntry) => IsPast(e, now)
  }

  lemma {:induction false} RetainedAre(es: seq<DeliveryEntry>, now: int)
    ensures var kept, gone := Filter(es, SettledWithin(now)), Filter(es, Past(now));
            && (forall e :: e in kept <==> e in es && !IsPast(e, now))
            && (forall e :: e in gone <==> e in es && IsPast(e, now))
            && |es| == |kept| + |gone|
  {
    if es != [] { RetainedAre(es[1..], now); }
  }

  /**
   * A cleanup takes out exactly the entries past retention and saves; with none it does not even write.
   * The number it reports is theirs.
   */
  lemma CleanupRemovesIff(f: Files, now: int, p: Persist)
    ensures var t, es := Collect(f, now, p), f.mem.entries;
            && |es| - |Filter(es, SettledWithin(now))| == |Filter(es, Past(now))|
            && if forall e :: e in es ==> !IsPast(e, now) then t == f
               else exists kept :: (forall e :: e in kept <==> e in es && !IsPast(e, now)) && t == Save(f, f.mem.(entries := kept), p)
  {
    hide Saved;
    var gone := Filter(f.mem.entries, Past(now));
    RetainedAre(f.mem.entries, now);
    if gone != [] { assert gone[0] in gone; }
    hide Filter, Save;
  }
}
