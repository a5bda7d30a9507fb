/**
 * `tick` and its coalescing: any number of callers, at most one run in progress, one more
 * scheduled, and nobody served by a run that began before they asked.
 */
module TickCoalescing {
  import opened Common

  /** A scheduled run; `direct` is the caller holding its own promise, none for a follow-up. */
  datatype TickRun = TickRun(id: nat, direct: Option<nat>)

  datatype Settled = Summary(run: nat) | Rejected

  /**
   * The worker's four fields, and a history: a clock that moves with every event, when each
   * caller asked, when each run started, and how each caller's promise settled.
   * Callers are numbered in the order of their calls, runs in the order they were scheduled.
   */
  datatype Ticks = Ticks(
    queued: bool,
    wakeup: bool,
    waiters: seq<nat>,
    chain: seq<TickRun>,
    active: bool,
    clock: nat,
    callTimes: seq<nat>,
    startTimes: map<nat, nat>,
    runs: nat,
    settled: map<nat, Settled>)

  const Idle: Ticks := Ticks(false, false, [], [], false, 0, [], map[], 0, map[])

  datatype TickEvent = Call | Start | Finish | Throw

  function Schedule(s: Ticks, direct: Option<nat>): Ticks {
    s.(queued := true, chain := s.chain + [TickRun(s.runs, direct)], runs := s.runs + 1)
  }

  function Settle(m: map<nat, Settled>, callers: seq<nat>, how: Settled): map<nat, Settled> {
    m + (map c | c in callers :: how)
  }

  lemma SettleOne(m: map<nat, Settled>, callers: seq<nat>, c: nat, how: Settled)
    ensures Settle(m, callers + [c], how) == Settle(m, callers, how)[c := how]
  {
    assert forall k :: k in callers + [c] <==> k in callers || k == c;
  }

  function DirectCaller(r: TickRun): seq<nat> {
    if r.direct.Some? then [r.direct.value] else []
  }

  /** A caller arrives: alone it schedules a run, otherwise it waits for a later one. */
  function OnCall(s: Ticks): Ticks {
    var c := |s.callTimes|;
    var asked := s.(callTimes := s.callTimes + [s.clock]);
    if s.queued then asked.(wakeup := true, waiters := s.waiters + [c])
    else Schedule(asked, Some(c))
  }

  function OnStart(s: Ticks): Ticks {
    if s.chain == [] || s.active then s
    else s.(active := true, startTimes := s.startTimes[s.chain[0].id := s.clock])
  }

  /** `finishTick`: with a wakeup pending one follow-up run takes all the waiters along. */
  function OnFinish(s: Ticks): Ticks {
    if !s.active || s.chain == [] then s
    else
      var run := s.chain[0];
      var own := s.(queued := false, active := false, chain := s.chain[1..],
                    settled := Settle(s.settled, DirectCaller(run), Summary(run.id)));
      if s.wakeup then Schedule(own.(wakeup := false), None)
      else own.(waiters := [], settled := Settle(own.settled, s.waiters, Summary(run.id)))
  }

  /** `failTick`: everybody waiting is rejected. */
  function OnThrow(s: Ticks): Ticks {
    if !s.active || s.chain == [] then s
    else
      s.(queued := false, wakeup := false, active := false, chain := s.chain[1..], waiters := [],
         settled := Settle(Settle(s.settled, DirectCaller(s.chain[0]), Rejected), s.waiters, Rejected))
  }

  function Apply(s: Ticks, e: TickEvent): Ticks {
    var t := match e
      case Call => OnCall(s)
      case Start => OnStart(s)
      case Finish => OnFinish(s)
      case Throw => OnThrow(s);
    t.(clock := s.clock + 1)
  }

  function Run(s: Ticks, events: seq<TickEvent>): Ticks
    decreases |events|
  {
    if events == [] then s else Run(Apply(s, events[0]), events[1..])
  }

  // ---- the fields in their own form --------------------------------------------

  class Coalescer {
    var queued: bool
    var wakeup: bool
    var waiters: seq<nat>
    var chain: seq<TickRun>
    var active: bool
    var runs: nat
    var settled: map<nat, Settled>
    ghost var clock: nat
    ghost var callTimes: seq<nat>
    ghost var startTimes: map<nat, nat>

    ghost function Value(): Ticks
      reads this
    {
      Ticks(queued, wakeup, waiters, chain, active, clock, callTimes, startTimes, runs, settled)
    }

    constructor ()
      ensures Value() == Idle
    {
      queued, wakeup, waiters, chain, active, runs, settled := false, false, [], [], false, 0, map[];
      clock, callTimes, startTimes := 0, [], map[];
    }

    method ScheduleRun(direct: Option<nat>)
      modifies this
      ensures Value() == Schedule(old(Value()), direct)
    {
      queued := true;
      chain := chain + [TickRun(runs, direct)];
      runs := runs + 1;
    }

    method Tick(caller: nat)
      requires caller == |callTimes|
      modifies this
      ensures Value() == Apply(old(Value()), Call)
    {
      callTimes := callTimes + [clock];
      if queued {
        wakeup := true;
        waiters := waiters + [caller];
      } else {
        ScheduleRun(Some(caller));
      }
      clock := clock + 1;
    }

    method Begin()
      modifies this
      ensures Value() == Apply(old(Value()), Start)
    {
      if chain != [] && !active {
        active := true;
        startTimes := startTimes[chain[0].id := clock];
      }
      clock := clock + 1;
    }

    method ResolveAll(callers: seq<nat>, how: Settled)
      modifies this`settled
      ensures settled == Settle(old(settled), callers, how)
    {
      for i := 0 to |callers|
        invariant settled == Settle(old(settled), callers[..i], how)
      {
        settled := settled[callers[i] := how];
        assert callers[..i + 1] == callers[..i] + [callers[i]];
        SettleOne(old(settled), callers[..i], callers[i], how);
      }
      assert callers[..|callers|] == callers;
    }

    method FinishTick()
      modifies this
      ensures Value() == Apply(old(Value()), Finish)
    {
      hide Settle, DirectCaller;
      if active && chain != [] {
        var run := chain[0];
        queued := false;
        active := false;
        chain := chain[1..];
        ResolveAll(DirectCaller(run), Summary(run.id));
        assert Value() == old(Value()).(queued := false, active := false, chain := old(chain)[1..],
                                        settled := Settle(old(settled), DirectCaller(run), Summary(run.id)));
        if wakeup {
          wakeup := false;
          ScheduleRun(None);
        } else {
          var ws := waiters;
          waiters := [];
          ResolveAll(ws, Summary(run.id));
        }
      }
      assert Value() == OnFinish(old(Value()));
      clock := clock + 1;
    }

    method FailTick()
      modifies this
      ensures Value() == Apply(old(Value()), Throw)
    {
      hide Settle, DirectCaller;
      if active && chain != [] {
        var run := chain[0];
        queued := false;
        wakeup := false;
        active := false;
        chain := chain[1..];
        ResolveAll(DirectCaller(run), Rejected);
        assert Value() == old(Value()).(queued := false, wakeup := false, active := false, chain := old(chain)[1..],
                                        settled := Settle(old(settled), DirectCaller(run), Rejected));
        var ws := waiters;
        waiters := [];
        ResolveAll(ws, Rejected);
      }
      assert Value() == OnThrow(old(Value()));
      clock := clock + 1;
    }
  }

  // ---- the invariant -----------------------------------------------------------

  /** The callers whose promise is still open. */
  function Open(s: Ticks): seq<nat> {
    s.waiters + (if s.chain == [] then [] else DirectCaller(s.chain[0]))
  }

  lemma OpenMembers(s: Ticks)
    ensures forall c :: c in Open(s) <==> c in s.waiters || (s.chain != [] && c in DirectCaller(s.chain[0]))
  {
  }

  predicate StartsAfter(s: Ticks, run: nat, caller: nat) {
    run in s.startTimes && caller < |s.callTimes| && s.callTimes[caller] < s.startTimes[run]
  }

  /** The scheduled run has not begun, or began after `caller` asked. */
  predicate WillCover(s: Ticks, caller: nat) {
    s.chain != [] && (!s.active || StartsAfter(s, s.chain[0].id, caller))
  }

  ghost predicate Fields(s: Ticks) {
    && |s.chain| <= 1
    && (s.queued <==> |s.chain| == 1)
    && (s.active ==> s.queued)
    && (!s.queued ==> s.waiters == [] && !s.wakeup)
    && (forall r :: r in s.chain ==> r.id < s.runs)
    && (s.chain != [] ==> (s.active <==> s.chain[0].id in s.startTimes))
  }

  ghost predicate Times(s: Ticks) {
    && (forall c :: 0 <= c < |s.callTimes| ==> s.callTimes[c] < s.clock)
    && (forall r :: r in s.startTimes ==> s.startTimes[r] < s.clock && r < s.runs)
  }

  ghost predicate Callers(s: Ticks) {
    && (forall c :: c in Open(s) ==> c < |s.callTimes| && c !in s.settled)
    && (s.chain != [] ==> forall c :: c in DirectCaller(s.chain[0]) ==> c !in s.waiters)
    && (forall c :: c in s.settled ==> c < |s.callTimes|)
    && (forall c :: 0 <= c < |s.callTimes| ==> c in s.settled || c in Open(s))
  }

  ghost predicate Coverage(s: Ticks) {
    && (forall c :: c in s.settled && s.settled[c].Summary? ==> StartsAfter(s, s.settled[c].run, c))
    && (s.chain != [] ==> forall c :: c in DirectCaller(s.chain[0]) ==> WillCover(s, c))
    && (forall c :: c in s.waiters ==> s.wakeup || WillCover(s, c))
  }

  ghost predicate Inv(s: Ticks) {
    Fields(s) && Times(s) && Callers(s) && Coverage(s)
    && s.runs + (if s.wakeup then 1 else 0) <= |s.callTimes|
  }

  lemma CallKeepsInv(s: Ticks)
    requires Inv(s)
    ensures Inv(Apply(s, Call))
  {
    hide Fields, Times, Callers, Coverage;
    CallFields(s);
    CallCallers(s);
    CallCoverage(s);
  }

  lemma CallFields(s: Ticks)
    requires Fields(s) && Times(s) && s.runs + (if s.wakeup then 1 else 0) <= |s.callTimes|
    ensures var s' := Apply(s, Call);
            Fields(s') && Times(s') && s'.runs + (if s'.wakeup then 1 else 0) <= |s'.callTimes|
  {
  }

  lemma CallCallers(s: Ticks)
    requires Fields(s) && Callers(s)
    ensures Callers(Apply(s, Call))
  {
    var s', c := Apply(s, Call), |s.callTimes|;
    assert forall k :: k in Open(s') <==> k in Open(s) || k == c;
    assert s'.settled == s.settled && |s'.callTimes| == c + 1;
    assert s.queued ==> s'.chain == s.chain;
    hide Open;
  }

  lemma CallCoverage(s: Ticks)
    requires Fields(s) && Coverage(s)
    ensures Coverage(Apply(s, Call))
  {
    var s' := Apply(s, Call);
    assert forall k :: 0 <= k < |s.callTimes| ==> s'.callTimes[k] == s.callTimes[k];
    forall run, k | StartsAfter(s, run, k) ensures StartsAfter(s', run, k) {
    }
  }

  lemma StartKeepsInv(s: Ticks)
    requires Inv(s)
    ensures Inv(Apply(s, Start))
  {
    var s' := Apply(s, Start);
    assert Open(s') == Open(s);
    forall run, c | StartsAfter(s, run, c) && (s.chain == [] || s.active || run != s.chain[0].id)
      ensures StartsAfter(s', run, c)
    {
    }
    OpenMembers(s);
    forall c | c in Open(s) && s.chain != [] && !s.active ensures StartsAfter(s', s.chain[0].id, c) {
    }
    assert forall c :: c in Open(s) && s.chain != [] ==> WillCover(s, c) ==> WillCover(s', c);
  }

  /** Who is open, who is settled, after the run at the head of the chain ended. */
  ghost predicate Ended(s: Ticks, s': Ticks, how: Settled)
    requires s.chain != []
  {
    && s'.settled == Settle(s.settled, if s'.waiters == [] then Open(s) else DirectCaller(s.chain[0]), how)
    && (s'.waiters == [] || s'.waiters == s.waiters)
    && (s'.chain == [] || s'.chain == [TickRun(s.runs, None)])
    && s'.callTimes == s.callTimes
  }

  lemma SettleAll(m: map<nat, Settled>, a: seq<nat>, b: seq<nat>, how: Settled)
    ensures Settle(Settle(m, b, how), a, how) == Settle(m, a + b, how)
  {
  }

  lemma EndedCallers(s: Ticks, s': Ticks, how: Settled)
    requires Fields(s) && Callers(s) && s.active && Ended(s, s', how)
    ensures Callers(s')
  {
    hide Open, DirectCaller;
    OpenMembers(s);
    WaitersAreOpen(s');
    forall c | 0 <= c < |s'.callTimes| ensures c in s'.settled || c in Open(s') {
      assert c in s.settled || c in Open(s);
    }
  }

  lemma WaitersAreOpen(s: Ticks)
    requires s.chain == [] || s.chain[0].direct == None
    ensures Open(s) == s.waiters && (s.chain != [] ==> DirectCaller(s.chain[0]) == [])
  {
  }

  lemma FinishKeepsInv(s: Ticks)
    requires Inv(s)
    ensures Inv(Apply(s, Finish))
  {
    hide Callers, Coverage, Times;
    if s.active && s.wakeup {
      assert s.chain[1..] == [];
      FollowUpKeepsInv(s, Apply(s, Finish));
    } else if s.active {
      LastRunKeepsInv(s);
    } else {
      IdleKeepsInv(s);
    }
  }

  lemma LastRunKeepsInv(s: Ticks)
    requires Inv(s) && s.active && !s.wakeup
    ensures Inv(Apply(s, Finish))
  {
    var s' := Apply(s, Finish);
    assert s.chain[1..] == [];
    SettleAll(s.settled, s.waiters, DirectCaller(s.chain[0]), Summary(s.chain[0].id));
    EndedCallers(s, s', Summary(s.chain[0].id));
    hide Callers, Settle, StartsAfter;
  }

  lemma IdleKeepsInv(s: Ticks)
    requires Inv(s) && !s.active
    ensures Inv(Apply(s, Finish))
  {
    assert Open(Apply(s, Finish)) == Open(s);
  }

  lemma FollowUpKeepsInv(s: Ticks, s': Ticks)
    requires Inv(s) && s.active && s.wakeup
    requires s' == s.(queued := true, wakeup := false, active := false, chain := [TickRun(s.runs, None)],
                      runs := s.runs + 1, clock := s.clock + 1,
                      settled := Settle(s.settled, DirectCaller(s.chain[0]), Summary(s.chain[0].id)))
    ensures Inv(s')
  {
    OpenMembers(s);
    assert Open(s') == s.waiters;
    forall c | 0 <= c < |s'.callTimes| ensures c in s'.settled || c in Open(s') {
      assert c in s.settled || c in Open(s);
    }
    forall c | c in s'.settled && s'.settled[c].Summary? ensures StartsAfter(s', s'.settled[c].run, c) {
      if c in DirectCaller(s.chain[0]) {
        assert WillCover(s, c);
      } else {
        assert StartsAfter(s, s.settled[c].run, c);
      }
    }
  }

  lemma ThrowKeepsInv(s: Ticks)
    requires Inv(s)
    ensures Inv(Apply(s, Throw))
  {
    var s' := Apply(s, Throw);
    if s.active {
      assert s.chain[1..] == [];
      SettleAll(s.settled, s.waiters, DirectCaller(s.chain[0]), Rejected);
      EndedCallers(s, s', Rejected);
      forall c | c in s'.settled && s'.settled[c].Summary? ensures StartsAfter(s', s'.settled[c].run, c) {
        assert StartsAfter(s, s.settled[c].run, c);
      }
      hide Callers, Settle;
    } else {
      assert Open(s') == Open(s);
    }
  }

  lemma {:induction false} RunKeepsInv(s: Ticks, events: seq<TickEvent>)
    requires Inv(s)
    ensures Inv(Run(s, events))
    decreases |events|
  {
    hide Inv, Apply;
    if events != [] {
      match events[0] {
        case Call => CallKeepsInv(s);
        case Start => StartKeepsInv(s);
        case Finish => FinishKeepsInv(s);
        case Throw => ThrowKeepsInv(s);
      }
      RunKeepsInv(Apply(s, events[0]), events[1..]);
    }
  }

  lemma IdleInv()
    ensures Inv(Idle)
  {
  }

  // ---- what callers may rely on ------------------------------------------------

  /** At most one run exists, scheduled or active, and with none queued nobody is left waiting. */
  lemma SingleFlight(events: seq<TickEvent>)
    ensures var s := Run(Idle, events);
            |s.chain| <= 1 && (s.chain == [] ==> !s.queued && !s.active && s.waiters == [] && Open(s) == [])
  {
    RunKeepsInv(Idle, events);
  }

  /** Whoever gets a summary gets that of a run that began after the call. */
  lemma SummaryIsFresh(events: seq<TickEvent>, c: nat)
    requires var s := Run(Idle, events); c in s.settled && s.settled[c].Summary?
    ensures var s := Run(Idle, events);
            var r := s.settled[c].run;
            c < |s.callTimes| && r in s.startTimes && s.callTimes[c] < s.startTimes[r]
  {
    RunKeepsInv(Idle, events);
  }

  /** Every caller is settled or still held by the scheduled run, never both, never neither. */
  lemma NoCallerForgotten(events: seq<TickEvent>, c: nat)
    requires c < |Run(Idle, events).callTimes|
    ensures var s := Run(Idle, events); (c in s.settled) <==> c !in Open(s)
  {
    RunKeepsInv(Idle, events);
  }

  /** Bounded work: no more runs than calls, however the callers overlap. */
  lemma RunsAreBounded(events: seq<TickEvent>)
    ensures Run(Idle, events).runs <= |Run(Idle, events).callTimes|
  {
    RunKeepsInv(Idle, events);
  }

  /** A settled promise never changes, whatever run follows. */
  lemma SettledOnce(before: seq<TickEvent>, after: seq<TickEvent>, c: nat)
    requires c in Run(Idle, before).settled
    ensures c in Run(Idle, before + after).settled
    ensures Run(Idle, before + after).settled[c] == Run(Idle, before).settled[c]
    decreases |after|
  {
    hide Run, Inv, Apply;
    if after == [] {
      assert before + after == before;
    } else {
      var init, e := after[..|after| - 1], after[|after| - 1];
      SettledOnce(before, init, c);
      assert before + after == before + init + [e];
      IdleInv();
      RunKeepsInv(Idle, before + init);
      RunOneMore(Idle, before + init, e);
      SettledStays(Run(Idle, before + init), e, c);
    }
  }

  lemma {:induction false} RunOneMore(s: Ticks, events: seq<TickEvent>, e: TickEvent)
    ensures Run(s, events + [e]) == Apply(Run(s, events), e)
    decreases |events|
  {
    hide Apply;
    if events == [] {
      assert [] + [e] == [e];
      assert Run(s, [e]) == Run(Apply(s, e), []);
    } else {
      assert (events + [e])[1..] == events[1..] + [e];
      RunOneMore(Apply(s, events[0]), events[1..], e);
    }
  }

  lemma SettledStays(s: Ticks, e: TickEvent, c: nat)
    requires Inv(s) && c in s.settled
    ensures c in Apply(s, e).settled && Apply(s, e).settled[c] == s.settled[c]
  {
    if s.chain != [] {
      assert forall k :: k in DirectCaller(s.chain[0]) ==> k in Open(s);
      assert forall k :: k in s.waiters ==> k in Open(s);
    }
  }

  /** No lost wakeup: once calls stop, two completed runs settle everybody with a summary. */
  lemma TwoRunsDrain(events: seq<TickEvent>)
    ensures var s := Run(Idle, events);
            var d := Run(s, [Start, Finish, Start, Finish]);
            && !d.queued && d.chain == [] && d.waiters == [] && d.callTimes == s.callTimes
            && forall c :: 0 <= c < |s.callTimes| ==> c in d.settled
  {
    hide Apply, Run, Inv;
    var s := Run(Idle, events);
    IdleInv();
    RunKeepsInv(Idle, events);
    FourEvents(s, Start, Finish, Start, Finish);
    FirstRun(s);
    SecondRun(Apply(Apply(s, Start), Finish));
  }

  lemma FourEvents(s: Ticks, a: TickEvent, b: TickEvent, c: TickEvent, d: TickEvent)
    ensures Run(s, [a, b, c, d]) == Apply(Apply(Apply(Apply(s, a), b), c), d)
  {
    hide Run, Apply;
    RunOneMore(s, [a, b, c], d);
    RunOneMore(s, [a, b], c);
    RunOneMore(s, [a], b);
    RunOneMore(s, [], a);
    assert [] + [a] == [a] && [a] + [b] == [a, b] && [a, b] + [c] == [a, b, c] && [a, b, c] + [d] == [a, b, c, d];
    RunNothing(s);
  }

  lemma RunNothing(s: Ticks)
    ensures Run(s, []) == s
  {
  }

  /** One run takes the wakeup along. */
  lemma FirstRun(s: Ticks)
    requires Inv(s)
    ensures var t := Apply(Apply(s, Start), Finish); Inv(t) && !t.wakeup && t.callTimes == s.callTimes
  {
    StartKeepsInv(s);
    FinishKeepsInv(Apply(s, Start));
    hide Times, Callers, Coverage, Settle;
  }

  /** Without a wakeup one run settles everybody. */
  lemma SecondRun(s: Ticks)
    requires Inv(s) && !s.wakeup
    ensures var t := Apply(Apply(s, Start), Finish);
            && !t.queued && t.chain == [] && t.waiters == [] && t.callTimes == s.callTimes
            && forall c :: 0 <= c < |s.callTimes| ==> c in t.settled
  {
    StartKeepsInv(s);
    FinishKeepsInv(Apply(s, Start));
    var t := Apply(Apply(s, Start), Finish);
    assert t.chain == [] && t.callTimes == s.callTimes && !t.queued;
    EverybodySettled(t);
    hide Apply, Inv;
  }

  lemma EverybodySettled(s: Ticks)
    requires Inv(s) && s.chain == []
    ensures s.waiters == [] && forall c :: 0 <= c < |s.callTimes| ==> c in s.settled
  {
    assert Open(s) == [];
    hide Coverage, Times;
  }
}
