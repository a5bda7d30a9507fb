/**
 * When a proposal may be decided at all: what an approval or an undo demands of the proposal before it
 * writes, which documents it may change, and that an undone proposal stays undone.
 */
module ProposalGuards {
  import opened Common
  import opened Records
  import opened DataBlocks
  import opened Proposals
  import opened ProposalRecovery

  /** The document is a proposal record of this status, over at least two targets. */
  ghost predicate ReadsAs(w: World, docs: Docs, path: string, status: string, targets: Targets) {
    && path in docs && Parse(w.o, docs[path]).Ok?
    && Parse(w.o, docs[path]).value.kind == "proposal" && Parse(w.o, docs[path]).value.status == status
    && BodyNames(w, Parse(w.o, docs[path]).value.body, targets)
    && |targets.ids| == |targets.paths| >= 2
  }

  ghost predicate BodyNames(w: World, body: string, targets: Targets) {
    exists json :: ParseDataBlock(body) == Some(json) && w.targetsOf(json) == Some(targets)
  }

  lemma ReadsAsIff(w: World, docs: Docs, path: string, status: string, targets: Targets)
    ensures ReadsAs(w, docs, path, status, targets) <==>
              var p := ReadProposal(w, docs, path); p.Some? && p.value.status == status && p.value.targets == targets
  {
    hide Parse, ParseDataBlock;
  }

  /**
   * An approval changes nothing unless the proposal waits for one: any other approval is stale, or the
   * replay of one already made. Then it writes the proposal and active targets of it, nothing else.
   */
  lemma ApprovalNeedsAPendingProposal(w: World, docs: Docs, path: string, lines: Lines, budget: nat, x: string)
    ensures var run := Approve(w, docs, path, lines, budget);
            && (run.docs != docs ==> exists targets :: ReadsAs(w, docs, path, "pending-approval", targets))
            && ((forall targets :: !ReadsAs(w, docs, path, "pending-approval", targets) && !ReadsAs(w, docs, path, "active", targets)) ==>
                  run == Run(docs, budget, Stale))
            && (!Same(docs, run.docs, x) ==>
                  exists targets :: ReadsAs(w, docs, path, "pending-approval", targets)
                                    && (x == path || (x in targets.paths && ReadStatus(w, docs, x) == Some("active"))))
  {
    hide ReadProposal, ReadsAs, ReadStatus, SupersedeTargets, Transitioned;
    var p := ReadProposal(w, docs, path);
    if p.Some? {
      ReadsAsIff(w, docs, path, p.value.status, p.value.targets);
      forall status: string, targets: Targets | ReadsAs(w, docs, path, status, targets) ensures status == p.value.status {
        ReadsAsIff(w, docs, path, status, targets);
      }
      if p.value.status == "pending-approval" {
        ApprovalWrites(w, docs, path, p.value, lines, budget, x);
      }
    } else {
      forall status: string, targets: Targets ensures !ReadsAs(w, docs, path, status, targets) {
        ReadsAsIff(w, docs, path, status, targets);
      }
    }
  }

  lemma ApprovalWrites(w: World, docs: Docs, path: string, p: Proposal, lines: Lines, budget: nat, x: string)
    requires ReadProposal(w, docs, path) == Some(p) && p.status == "pending-approval"
    ensures var run := Approve(w, docs, path, lines, budget);
            x != path && !(x in p.targets.paths && ReadStatus(w, docs, x) == Some("active")) ==> Same(docs, run.docs, x)
  {
    hide ReadProposal, ReadStatus, SupersedeTargets, Transitioned, AllMarked;
    ProposalIsThere(w, docs, path);
    if x != path && !(x in p.targets.paths && ReadStatus(w, docs, x) == Some("active")) {
      var first := Write(docs, budget, path, Transitioned(w.o, docs[path], "active", lines.onProposal));
      SameReads(w, docs, first.docs, x, "");
      SupersedeLeaves(w, first.docs, first.budget, p.targets.paths, lines.onTarget, x);
    }
  }

  /**
   * An undo changes nothing unless the proposal is active and its text says it was approved. Then it
   * writes the proposal and targets superseded with its mark, nothing else.
   */
  lemma UndoNeedsAnApprovedProposal(w: World, docs: Docs, path: string, lines: Lines, budget: nat, x: string)
    ensures var run := Undo(w, docs, path, lines, budget);
            && (run.docs != docs ==>
                  exists targets :: ReadsAs(w, docs, path, "active", targets) && Contains(docs[path], "approved by "))
            && (!Same(docs, run.docs, x) && x != path ==>
                  exists p :: ReadProposal(w, docs, path) == Some(p) && x in p.targets.paths
                              && ReadStatus(w, docs, x) == Some("superseded") && Contains(docs[x], SupersededBy(p.id)))
  {
    hide ReadProposal, ReadsAs, ReadStatus, RestoreTargets, Transitioned, Includes, Contains, SupersededBy;
    var p := ReadProposal(w, docs, path);
    if p.Some? {
      ReadsAsIff(w, docs, path, p.value.status, p.value.targets);
      ProposalIsThere(w, docs, path);
      IncludesIff(docs[path], "approved by ");
      if x != path { UndoWrites(w, docs, path, p.value, lines, budget, x); }
      if x in docs { IncludesIff(docs[x], SupersededBy(p.value.id)); }
    }
  }

  lemma {:induction false} RestoringIsNoReplay(w: World, docs: Docs, budget: nat, paths: seq<string>, id: string, line: string)
    ensures RestoreTargets(w, docs, budget, paths, id, line).outcome != Replay
    decreases |paths|
  {
    hide Parse, Transitioned, Includes, SupersededBy;
    if paths != [] && ReadStatus(w, docs, paths[0]).Some? {
      RestoringIsNoReplay(w, docs, budget, paths[1..], id, line);
      var next := Write(docs, budget, paths[0], Transitioned(w.o, docs[paths[0]], "active", line));
      RestoringIsNoReplay(w, next.docs, next.budget, paths[1..], id, line);
    }
  }

  /**
   * An undo is a replay exactly when the proposal is superseded and its text says it was undone; a rejected one,
   * or one never approved, is stale.
   */
  lemma UndoIsReplayIff(w: World, docs: Docs, path: string, lines: Lines, budget: nat)
    ensures var run := Undo(w, docs, path, lines, budget);
            var undone := exists targets :: ReadsAs(w, docs, path, "superseded", targets)
                            && Contains(docs[path], "approval undone by ") && Contains(docs[path], "(op ");
            var approved := exists targets :: ReadsAs(w, docs, path, "active", targets) && Contains(docs[path], "approved by ");
            && (run.outcome == Replay <==> undone)
            && (!undone && !approved ==> run == Run(docs, budget, Stale))
  {
    hide ReadProposal, ReadsAs, RestoreTargets, Transitioned, Includes, Contains;
    var p := ReadProposal(w, docs, path);
    if p.Some? {
      ReadsAsIff(w, docs, path, p.value.status, p.value.targets);
      forall status: string, targets: Targets | ReadsAs(w, docs, path, status, targets) ensures status == p.value.status {
        ReadsAsIff(w, docs, path, status, targets);
      }
      ProposalIsThere(w, docs, path);
      IncludesIff(docs[path], "approved by ");
      IncludesIff(docs[path], "approval undone by ");
      IncludesIff(docs[path], "(op ");
      RestoringIsNoReplay(w, docs, budget, p.value.targets.paths, p.value.id, lines.onTarget);
    } else {
      forall status: string, targets: Targets ensures !ReadsAs(w, docs, path, status, targets) {
        ReadsAsIff(w, docs, path, status, targets);
      }
    }
  }

  lemma ProposalIsThere(w: World, docs: Docs, path: string)
    requires ReadProposal(w, docs, path).Some?
    ensures path in docs
  {
  }

  lemma UndoWrites(w: World, docs: Docs, path: string, p: Proposal, lines: Lines, budget: nat, x: string)
    requires ReadProposal(w, docs, path) == Some(p) && x != path
    ensures !Same(docs, Undo(w, docs, path, lines, budget).docs, x) ==>
              x in docs && x in p.targets.paths && ReadStatus(w, docs, x) == Some("superseded") && Includes(docs[x], SupersededBy(p.id))
  {
    hide ReadProposal, ReadStatus, RestoreTargets, Transitioned, Includes, SupersededBy, AlreadyUndone;
    if !(x in p.targets.paths && ReadStatus(w, docs, x) == Some("superseded") && x in docs && Includes(docs[x], SupersededBy(p.id))) {
      RestoreWrites(w, docs, budget, p.targets.paths, p.id, lines.onTarget, x);
    }
  }

  /** Restoring writes targets superseded with the mark, and no other. */
  lemma {:induction false} RestoreWrites(w: World, docs: Docs, budget: nat, paths: seq<string>, id: string, line: string, x: string)
    requires x in paths ==> ReadStatus(w, docs, x) != Some("superseded") || x !in docs || !Includes(docs[x], SupersededBy(id))
    ensures Same(docs, RestoreTargets(w, docs, budget, paths, id, line).docs, x)
    decreases |paths|
  {
    hide ReadStatus, Transitioned, Includes, SupersededBy;
    if paths != [] && ReadStatus(w, docs, paths[0]).Some? {
      ReadIsThere(w, docs, paths[0]);
      if ReadStatus(w, docs, paths[0]) == Some("active") {
        RestoreWrites(w, docs, budget, paths[1..], id, line, x);
      } else if ReadStatus(w, docs, paths[0]) == Some("superseded") && Includes(docs[paths[0]], SupersededBy(id)) {
        var next := Write(docs, budget, paths[0], Transitioned(w.o, docs[paths[0]], "active", line));
        if next.outcome == Applied {
          SameReads(w, docs, next.docs, x, id);
          RestoreWrites(w, next.docs, next.budget, paths[1..], id, line, x);
        }
      }
    }
  }

  // ---- an undone proposal stays undone -------------------------------------------------------------

  datatype Action = Approving(lines: Lines, budget: nat) | Undoing(lines: Lines, budget: nat)

  function Act(w: World, docs: Docs, path: string, a: Action): Run {
    match a
    case Approving(lines, budget) => Approve(w, docs, path, lines, budget)
    case Undoing(lines, budget) => Undo(w, docs, path, lines, budget)
  }

  function ActMany(w: World, docs: Docs, path: string, actions: seq<Action>): Docs
    decreases |actions|
  {
    if actions == [] then docs else ActMany(w, Act(w, docs, path, actions[0]).docs, path, actions[1..])
  }

  /** Read as superseded, with the text of an undo. */
  ghost predicate Undone(w: World, docs: Docs, path: string) {
    ReadProposal(w, docs, path).Some? && ReadProposal(w, docs, path).value.status == "superseded" && AlreadyUndone(docs[path])
  }

  lemma UndoneRefuses(w: World, docs: Docs, path: string, a: Action)
    requires path in docs && Undone(w, docs, path)
    ensures Act(w, docs, path, a) == Run(docs, a.budget, if a.Approving? then Stale else Replay)
  {
    hide ReadProposal, AlreadyUndone, RestoreTargets, SupersedeTargets;
  }

  lemma {:induction false} UndoneStays(w: World, docs: Docs, path: string, actions: seq<Action>)
    requires path in docs && Undone(w, docs, path)
    ensures ActMany(w, docs, path, actions) == docs
    decreases |actions|
  {
    hide Undone, Act;
    if actions != [] {
      UndoneRefuses(w, docs, path, actions[0]);
      UndoneStays(w, docs, path, actions[1..]);
    }
  }

  /**
   * After an approval cut anywhere past its first write and an undo that went through, over recoverable
   * targets: whatever approvals and undo attempts follow, every approval is stale, every undo a replay,
   * and no document changes, so the proposal stays superseded and the targets stay active.
   */
  lemma UndoneIsFinal(w: World, docs: Docs, c: Case, actor: string, at: string, op: string, approved: nat,
                      attempts: seq<Attempt>, last: Attempt, actions: seq<Action>, next: Action)
    requires Pending(w, docs, c) && AllRecoverable(w, docs, c) && approved > 0 && last.budget > |c.targets.paths|
    ensures var crashed := Approve(w, docs, c.path, ApproveLines(c.id, actor, at, op), approved).docs;
            var undone := UndoOnce(w, UndoMany(w, crashed, c, attempts), c, last).docs;
            && ActMany(w, undone, c.path, actions) == undone
            && Act(w, undone, c.path, next) == Run(undone, next.budget, if next.Approving? then Stale else Replay)
            && ReadStatus(w, undone, c.path) == Some("superseded")
            && forall x :: x in c.targets.paths ==> ReadStatus(w, undone, x) == Some("active")
  {
    hide Pending, AllRecoverable, Approve, UndoOnce, UndoMany, ApproveLines, ReadStatus, Decided, Readable, Undone, Act;
    PendingIsReadable(w, docs, c);
    var recs := ApprovalDecides(w, docs, c, actor, at, op, approved);
    var crashed := Approve(w, docs, c.path, ApproveLines(c.id, actor, at, op), approved).docs;
    var recs2 := UndoManyKeepsDecided(w, crashed, recs, c, attempts);
    var recs3 := UndoKeepsDecided(w, UndoMany(w, crashed, c, attempts), recs2, c, last);
    var undone := UndoOnce(w, UndoMany(w, crashed, c, attempts), c, last).docs;
    DecidedReads(w, undone, recs3, c);
    DecidedIsUndone(w, undone, recs3, c);
    UndoneStays(w, undone, c.path, actions);
    UndoneRefuses(w, undone, c.path, next);
  }

  lemma DecidedIsUndone(w: World, docs: Docs, recs: Recs, c: Case)
    requires Readable(w, c) && Decided(w, docs, recs, c) && c.path in recs && recs[c.path].status == "superseded"
    ensures c.path in docs && Undone(w, docs, c.path)
    ensures ReadStatus(w, docs, c.path) == Some("superseded")
    ensures forall x :: x in c.targets.paths ==> ReadStatus(w, docs, x) == Some("active")
  {
    hide ReadProposal, ReadStatus, AlreadyUndone, Abs, Variant, TargetOk, HasBlock, JsonLayout, Faithful, Contains;
    ProposalReads(w, docs, recs, c);
    ActiveProposalIncludes(w, docs, recs, c);
    AbsReads(w, docs, recs, c.path);
    forall x | x in c.targets.paths ensures ReadStatus(w, docs, x) == Some("active") {
      AbsReads(w, docs, recs, x);
    }
  }
}
