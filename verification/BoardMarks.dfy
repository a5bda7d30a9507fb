/**
 * What the delivery state says of a message, over whole runs: each retained entry, in memory or on
 * disk, says what some cycle of the run read at its path.
 */
module BoardMarks {
  import opened Common
  import opened BoardState
  import opened BoardDelivery
  import opened BoardSafety

  /** Each entry is right by the reading of one of `envs`. */
  ghost predicate Right(cfg: Config, envs: seq<Env>, es: seq<DeliveryEntry>) {
    forall e :: e in es ==> RightBySome(cfg, envs, e)
  }

  ghost predicate RightBySome(cfg: Config, envs: seq<Env>, e: DeliveryEntry) {
    exists n :: 0 <= n < |envs| && RightEntry(cfg, envs[n], e)
  }

  ghost predicate FilesRight(cfg: Config, envs: seq<Env>, f: Files) {
    FilesOk(f) && Right(cfg, envs, f.mem.entries) && Right(cfg, envs, f.disk.entries)
  }

  lemma SavedRight(cfg: Config, envs: seq<Env>, f: Files, st: State, p: Persist)
    requires FilesRight(cfg, envs, f) && Right(cfg, envs, st.entries)
    requires DistinctIds(st.entries) && DeliveredOrSkipped(st.entries)
    ensures FilesRight(cfg, envs, Save(f, st, p))
  {
    SaveIsOk(f, st, p);
    SaveKeepsTheBacklog(st.entries);
    hide Saved, FilesOk, DistinctIds, RightBySome, AcksRecent, UnreadCount, DeliveredOrSkipped;
  }

  lemma PutRight(cfg: Config, envs: seq<Env>, es: seq<DeliveryEntry>, e: DeliveryEntry)
    requires DistinctIds(es) && DeliveredOrSkipped(es) && Right(cfg, envs, es) && RightBySome(cfg, envs, e) && OneKind(e)
    ensures var after := Put(es, e); DistinctIds(after) && DeliveredOrSkipped(after) && Right(cfg, envs, after)
  {
    PutDistinct(es, e);
    hide Put, DistinctIds, RightBySome, OneKind;
  }

  lemma EffectRight(cfg: Config, envs: seq<Env>, n: nat, f: Files, e: Effect, p: Persist)
    requires FilesRight(cfg, envs, f) && n < |envs| && RightEffect(cfg, envs[n], e)
    ensures FilesRight(cfg, envs, BoardDelivery.Perform(f, e, p))
  {
    hide FilesRight, RightEntry, Save, Put;
    FilesSay(cfg, envs, f);
    match e {
      case Hand(_) =>
      case Mark(entry) =>
        assert RightBySome(cfg, envs, entry);
        PutRight(cfg, envs, f.mem.entries, entry);
        SavedRight(cfg, envs, f, f.mem.(entries := Put(f.mem.entries, entry)), p);
      case MoveCursor(k) => SavedRight(cfg, envs, f, f.mem.(lastSeq := Some(k)), p);
    }
  }

  lemma FilesSay(cfg: Config, envs: seq<Env>, f: Files)
    requires FilesRight(cfg, envs, f)
    ensures FilesOk(f) && Right(cfg, envs, f.mem.entries) && DistinctIds(f.mem.entries) && DeliveredOrSkipped(f.mem.entries)
  {
    hide Right;
  }

  lemma {:induction false} ExecuteRight(cfg: Config, envs: seq<Env>, n: nat, f: Files, es: seq<Effect>, outcome: nat -> Persist, k: nat)
    requires FilesRight(cfg, envs, f) && n < |envs| && forall e :: e in es ==> RightEffect(cfg, envs[n], e)
    ensures FilesRight(cfg, envs, Execute(f, es, outcome, k))
    decreases |es|
  {
    hide FilesRight, RightEffect, BoardDelivery.Perform;
    if es != [] {
      EffectRight(cfg, envs, n, f, es[0], outcome(k));
      ExecuteRight(cfg, envs, n, BoardDelivery.Perform(f, es[0], outcome(k)), es[1..], outcome, k + 1);
    }
  }

  lemma MoreEnvs(cfg: Config, envs: seq<Env>, more: seq<Env>, f: Files)
    requires FilesRight(cfg, envs, f)
    ensures FilesRight(cfg, envs + more, f)
  {
    hide RightEntry, FilesOk;
    forall e | RightBySome(cfg, envs, e) ensures RightBySome(cfg, envs + more, e) {
      var n :| 0 <= n < |envs| && RightEntry(cfg, envs[n], e);
      assert (envs + more)[n] == envs[n];
    }
    hide RightBySome;
  }

  lemma AckRight(cfg: Config, envs: seq<Env>, f: Files, id: string, now: int, p: Persist)
    requires FilesRight(cfg, envs, f)
    ensures FilesRight(cfg, envs, Ack(f, id, now, p))
  {
    FilesSay(cfg, envs, f);
    var i := IndexOf(f.mem.entries, id);
    if i.Some? && f.mem.entries[i.value].ackedAt.None? {
      var es := f.mem.entries;
      var e := es[i.value].(ackedAt := Some(now));
      assert es[i.value] in es && RightBySome(cfg, envs, es[i.value]) && OneKind(es[i.value]);
      SameReading(cfg, envs, es[i.value], e);
      PutRight(cfg, envs, es, e);
      hide FilesRight, Save, Right;
      SavedRight(cfg, envs, f, f.mem.(entries := es[i.value := e]), p);
    }
  }

  lemma SameReading(cfg: Config, envs: seq<Env>, a: DeliveryEntry, b: DeliveryEntry)
    requires RightBySome(cfg, envs, a) && a.path == b.path && a.skip == b.skip
    ensures RightBySome(cfg, envs, b)
  {
    var n :| 0 <= n < |envs| && RightEntry(cfg, envs[n], a);
    assert RightEntry(cfg, envs[n], b);
  }

  lemma CollectRight(cfg: Config, envs: seq<Env>, f: Files, now: int, p: Persist)
    requires FilesRight(cfg, envs, f)
    ensures FilesRight(cfg, envs, Collect(f, now, p))
  {
    FilterDistinct(f.mem.entries, SettledWithin(now));
    var kept := Filter(f.mem.entries, SettledWithin(now));
    assert Right(cfg, envs, kept) && DeliveredOrSkipped(kept);
    SavedRight(cfg, envs, f, f.mem.(entries := kept), p);
    hide FilesRight, Save, Right;
  }

  /** The cycles of a run, those that died included. */
  function EnvsOf(events: seq<Event>): seq<Env> {
    if events == [] then []
    else EnvsOf(events[..|events| - 1]) + EnvOf(events[|events| - 1])
  }

  function EnvOf(e: Event): seq<Env> {
    match e
    case Cycle(env) => [env]
    case CrashDuring(env, _) => [env]
    case _ => []
  }

  lemma StepRight(cfg: Config, envs: seq<Env>, s: Sys, e: Event)
    requires FilesRight(cfg, envs, s.files)
    ensures FilesRight(cfg, envs + EnvOf(e), Apply(cfg, s, e).files)
  {
    hide FilesRight, CyclePlan, Execute, Ack, Collect, Touched, RightEffect;
    MoreEnvs(cfg, envs, EnvOf(e), s.files);
    match e {
      case Cycle(env) => CycleRight(cfg, envs, s, env, |CyclePlan(cfg, env, s.files.mem)|);
      case CrashDuring(env, n) =>
        CycleRight(cfg, envs, s, env, Min(n, |CyclePlan(cfg, env, s.files.mem)|));
        RestartRight(cfg, envs + [env], BoardSafety.Perform(s, CyclePlan(cfg, env, s.files.mem)[..Min(n, |CyclePlan(cfg, env, s.files.mem)|)], env));
      case Restart => RestartRight(cfg, envs + [], s);
      case AckMessage(id, now, p) => AckRight(cfg, envs + [], s.files, id, now, p);
      case CollectOld(now, p) => CollectRight(cfg, envs + [], s.files, now, p);
      case _ =>
    }
  }

  lemma RestartRight(cfg: Config, envs: seq<Env>, s: Sys)
    requires FilesRight(cfg, envs, s.files)
    ensures FilesRight(cfg, envs, Restarted(s).files)
  {
    hide Right;
  }

  lemma CycleRight(cfg: Config, envs: seq<Env>, s: Sys, env: Env, n: nat)
    requires FilesRight(cfg, envs + [env], s.files) && n <= |CyclePlan(cfg, env, s.files.mem)|
    ensures FilesRight(cfg, envs + [env], BoardSafety.Perform(s, CyclePlan(cfg, env, s.files.mem)[..n], env).files)
    ensures n == |CyclePlan(cfg, env, s.files.mem)| ==>
              FilesRight(cfg, envs + [env], BoardSafety.Perform(s, CyclePlan(cfg, env, s.files.mem), env).files)
  {
    hide FilesRight, CyclePlan, Execute, Touched, RightEffect;
    var plan := CyclePlan(cfg, env, s.files.mem);
    CycleIsRight(cfg, env, s.files.mem);
    assert (envs + [env])[|envs|] == env;
    assert forall e :: e in plan[..n] ==> e in plan;
    ExecuteRight(cfg, envs + [env], |envs|, s.files, plan[..n], env.outcome, 0);
    assert n == |plan| ==> plan[..n] == plan;
  }

  lemma {:induction false} RunRight(cfg: Config, events: seq<Event>)
    ensures FilesRight(cfg, EnvsOf(events), Run(cfg, Init, events).files)
    decreases |events|
  {
    hide FilesRight, Apply;
    if events == [] {
      NothingRight(cfg);
    } else {
      var init, e := events[..|events| - 1], events[|events| - 1];
      RunRight(cfg, init);
      StepRight(cfg, EnvsOf(init), Run(cfg, Init, init), e);
      LastEvent(cfg, Init, init, e);
      assert init + [e] == events;
    }
  }

  lemma NothingRight(cfg: Config)
    ensures FilesRight(cfg, [], Init.files)
  {
  }

  lemma {:induction false} LastEvent(cfg: Config, s: Sys, events: seq<Event>, e: Event)
    ensures Run(cfg, s, events + [e]) == Apply(cfg, Run(cfg, s, events), e)
    decreases |events|
  {
    hide Apply;
    if events == [] {
      assert [] + [e] == [e];
      assert Run(cfg, s, [e]) == Run(cfg, Apply(cfg, s, e), []);
    } else {
      assert (events + [e])[1..] == events[1..] + [e];
      LastEvent(cfg, Apply(cfg, s, events[0]), events[1..], e);
    }
  }

  /**
   * In every run, whatever the feed, each entry in memory or on disk is right by the reading of some
   * cycle: one marked delivered was read as a message to us, one skipped for exactly the reason it
   * gives.
   */
  lemma EntriesSayWhatWasRead(cfg: Config, events: seq<Event>, e: DeliveryEntry)
    requires var f := Run(cfg, Init, events).files; e in f.mem.entries || e in f.disk.entries
    ensures exists n :: 0 <= n < |EnvsOf(events)| && RightEntry(cfg, EnvsOf(events)[n], e)
  {
    RunRight(cfg, events);
    hide Run, FilesOk, RightEntry;
    assert RightBySome(cfg, EnvsOf(events), e);
  }
}
