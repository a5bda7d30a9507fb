/**
 * The proposal lifecycle: approve and undo as sequences of document writes that a crash can cut
 * anywhere, and the recovery path from every such point.
 */
module Proposals {
  import opened Common
  import opened Records
  import opened DataBlocks

  type Docs = map<string, string>

  // ---- editing one document ------------------------------------------------------------

  function TrimNewlines(s: string): (t: string)
    ensures t <= s
  {
    if s != "" && s[|s| - 1] == '\n' then TrimNewlines(s[..|s| - 1]) else s
  }

  const PROVENANCE: string := "kiwifs-provenance: "

  /** The trailing newlines become one, then the provenance line follows. */
  function AppendProvenance(raw: string, line: string): string {
    TrimNewlines(raw) + "\n" + (PROVENANCE + line + "\n")
  }

  function WithStatus(o: Outside, raw: string, status: string): Option<string> {
    match Parse(o, raw)
    case Err(_) => None
    case Ok(r) =>
      match Serialize(o, r.(status := status))
      case Err(_) => None
      case Ok(doc) => Some(doc)
  }

  /** Status change and provenance line, as every transition writes them. */
  function Transitioned(o: Outside, raw: string, status: string, line: string): Option<string> {
    match WithStatus(o, raw, status)
    case None => None
    case Some(doc) => Some(AppendProvenance(doc, line))
  }

  ghost predicate Contains(text: string, part: string) {
    exists i :: 0 <= i <= |text| && StandsAt(text, part, i)
  }

  predicate Includes(text: string, part: string) {
    Find(text, part, 0).Some?
  }

  // ---- the transitions --------------------------------------------------------------------

  datatype Targets = Targets(action: string, ids: seq<string>, paths: seq<string>)

  /** `targetsOf` decodes the data block; `None` when it is not a merge target set. */
  datatype World = World(o: Outside, targetsOf: string -> Option<Targets>)

  datatype Proposal = Proposal(id: string, status: string, targets: Targets)

  function ReadProposal(w: World, docs: Docs, path: string): Option<Proposal> {
    if path !in docs then None
    else
      match Parse(w.o, docs[path])
      case Err(_) => None
      case Ok(r) =>
        if r.kind != "proposal" then None
        else
          match ParseDataBlock(r.body)
          case None => None
          case Some(json) =>
            match w.targetsOf(json)
            case None => None
            case Some(ts) =>
              if |ts.ids| != |ts.paths| || |ts.ids| < 2 then None else Some(Proposal(r.id, r.status, ts))
  }

  function ReadStatus(w: World, docs: Docs, path: string): Option<string> {
    if path !in docs then None
    else
      match Parse(w.o, docs[path])
      case Err(_) => None
      case Ok(r) => Some(r.status)
  }

  /** The provenance texts of one transition. */
  datatype Lines = Lines(onProposal: string, onTarget: string)

  function SupersededBy(id: string): string {
    "superseded by proposal " + id + " "
  }

  datatype Outcome = Applied | Replay | Stale | Died

  datatype Run = Run(docs: Docs, budget: nat, outcome: Outcome)

  /** `budget` is how many writes happen before the process dies. */
  function Write(docs: Docs, budget: nat, path: string, content: Option<string>): Run {
    if content.None? then Run(docs, budget, Stale)
    else if budget == 0 then Run(docs, 0, Died)
    else Run(docs[path := content.value], budget - 1, Applied)
  }

  function SupersedeTargets(w: World, docs: Docs, budget: nat, paths: seq<string>, line: string): Run
    decreases |paths|
  {
    if paths == [] then Run(docs, budget, Applied)
    else if ReadStatus(w, docs, paths[0]) != Some("active") then Run(docs, budget, Stale)
    else
      var next := Write(docs, budget, paths[0], Transitioned(w.o, docs[paths[0]], "superseded", line));
      if next.outcome != Applied then next else SupersedeTargets(w, next.docs, next.budget, paths[1..], line)
  }

  predicate AllMarked(w: World, docs: Docs, paths: seq<string>, id: string) {
    forall p :: p in paths ==> ReadStatus(w, docs, p).Some? && Includes(docs[p], SupersededBy(id))
  }

  function Approve(w: World, docs: Docs, path: string, lines: Lines, budget: nat): Run {
    match ReadProposal(w, docs, path)
    case None => Run(docs, budget, Stale)
    case Some(p) =>
      if p.status == "active" then
        Run(docs, budget, if AllMarked(w, docs, p.targets.paths, p.id) then Replay else Stale)
      else if p.status != "pending-approval" then Run(docs, budget, Stale)
      else
        var first := Write(docs, budget, path, Transitioned(w.o, docs[path], "active", lines.onProposal));
        if first.outcome != Applied then first
        else SupersedeTargets(w, first.docs, first.budget, p.targets.paths, lines.onTarget)
  }

  function RestoreTargets(w: World, docs: Docs, budget: nat, paths: seq<string>, id: string, line: string): Run
    decreases |paths|
  {
    if paths == [] then Run(docs, budget, Applied)
    else
      match ReadStatus(w, docs, paths[0])
      case None => Run(docs, budget, Stale)
      case Some(status) =>
        if status == "active" then RestoreTargets(w, docs, budget, paths[1..], id, line)
        else if status != "superseded" || !Includes(docs[paths[0]], SupersededBy(id)) then Run(docs, budget, Stale)
        else
          var next := Write(docs, budget, paths[0], Transitioned(w.o, docs[paths[0]], "active", line));
          if next.outcome != Applied then next else RestoreTargets(w, next.docs, next.budget, paths[1..], id, line)
  }

  predicate AlreadyUndone(raw: string) {
    Includes(raw, "approval undone by ") && Includes(raw, "(op ")
  }

  function Undo(w: World, docs: Docs, path: string, lines: Lines, budget: nat): Run {
    match ReadProposal(w, docs, path)
    case None => Run(docs, budget, Stale)
    case Some(p) =>
      if p.status == "superseded" && AlreadyUndone(docs[path]) then Run(docs, budget, Replay)
      else if p.status != "active" || !Includes(docs[path], "approved by ") then Run(docs, budget, Stale)
      else
        var restored := RestoreTargets(w, docs, budget, p.targets.paths, p.id, lines.onTarget);
        if restored.outcome != Applied then restored
        else if path !in restored.docs then Run(restored.docs, restored.budget, Stale)
        else Write(restored.docs, restored.budget, path, Transitioned(w.o, restored.docs[path], "superseded", lines.onProposal))
  }

  // ---- the lifecycle, in its own form ----------------------------------------------------------

  class Store {
    var docs: Docs
    var budget: nat

    constructor (docs: Docs, budget: nat)
      ensures this.docs == docs && this.budget == budget
    {
      this.docs, this.budget := docs, budget;
    }

    /** A write that is read back; after the last one of the budget the process is gone. */
    method VerifiedWrite(path: string, content: string) returns (ok: bool)
      modifies this
      ensures var r := Write(old(docs), old(budget), path, Some(content));
              docs == r.docs && budget == r.budget && (ok <==> r.outcome == Applied)
    {
      ok := budget > 0;
      if ok {
        docs := docs[path := content];
        budget := budget - 1;
      }
    }
  }

  class Lifecycle {
    const w: World
    const store: Store

    constructor (w: World, store: Store)
      ensures this.w == w && this.store == store
    {
      this.w, this.store := w, store;
    }

    ghost predicate Reached(r: Run, outcome: Outcome)
      reads store
    {
      store.docs == r.docs && store.budget == r.budget && outcome == r.outcome
    }

    method ApproveInner(path: string, lines: Lines) returns (outcome: Outcome)
      modifies store
      ensures Reached(Approve(w, old(store.docs), path, lines, old(store.budget)), outcome)
    {
      hide Parse, Serialize, AppendProvenance, ParseDataBlock, Find;
      var read := ReadProposal(w, store.docs, path);
      if read.None? { return Stale; }
      var p := read.value;
      if p.status == "active" {
        for i := 0 to |p.targets.paths|
          invariant store.docs == old(store.docs) && store.budget == old(store.budget)
          invariant AllMarked(w, store.docs, p.targets.paths[..i], p.id)
        {
          var target := p.targets.paths[i];
          assert target in p.targets.paths;
          if ReadStatus(w, store.docs, target).None? || !Includes(store.docs[target], SupersededBy(p.id)) {
            return Stale;
          }
        }
        assert p.targets.paths[..|p.targets.paths|] == p.targets.paths;
        return Replay;
      }
      if p.status != "pending-approval" { return Stale; }
      var doc := Transitioned(w.o, store.docs[path], "active", lines.onProposal);
      if doc.None? { return Stale; }
      var ok := store.VerifiedWrite(path, doc.value);
      if !ok { return Died; }
      outcome := SupersedeAll(p.targets.paths, lines.onTarget);
    }

    method SupersedeAll(paths: seq<string>, line: string) returns (outcome: Outcome)
      modifies store
      ensures Reached(SupersedeTargets(w, old(store.docs), old(store.budget), paths, line), outcome)
    {
      hide Transitioned, ReadStatus;
      ghost var total := SupersedeTargets(w, store.docs, store.budget, paths, line);
      assert paths[0..] == paths;
      for i := 0 to |paths|
        invariant SupersedeTargets(w, store.docs, store.budget, paths[i..], line) == total
      {
        assert paths[i..][1..] == paths[i + 1..];
        if ReadStatus(w, store.docs, paths[i]) != Some("active") { return Stale; }
        PresentWhenRead(paths[i]);
        var doc := Transitioned(w.o, store.docs[paths[i]], "superseded", line);
        if doc.None? { return Stale; }
        var ok := store.VerifiedWrite(paths[i], doc.value);
        if !ok { return Died; }
      }
      return Applied;
    }

    lemma PresentWhenRead(path: string)
      requires ReadStatus(w, store.docs, path).Some?
      ensures path in store.docs
    {
    }

    method RestoreAll(paths: seq<string>, id: string, line: string) returns (outcome: Outcome)
      modifies store
      ensures Reached(RestoreTargets(w, old(store.docs), old(store.budget), paths, id, line), outcome)
    {
      hide Transitioned, ReadStatus, Includes;
      ghost var total := RestoreTargets(w, store.docs, store.budget, paths, id, line);
      assert paths[0..] == paths;
      for i := 0 to |paths|
        invariant RestoreTargets(w, store.docs, store.budget, paths[i..], id, line) == total
      {
        assert paths[i..][1..] == paths[i + 1..];
        var status := ReadStatus(w, store.docs, paths[i]);
        if status.None? { return Stale; }
        PresentWhenRead(paths[i]);
        if status != Some("active") {
          if status != Some("superseded") || !Includes(store.docs[paths[i]], SupersededBy(id)) { return Stale; }
          var doc := Transitioned(w.o, store.docs[paths[i]], "active", line);
          if doc.None? { return Stale; }
          var ok := store.VerifiedWrite(paths[i], doc.value);
          if !ok { return Died; }
        }
      }
      return Applied;
    }

    method UndoInner(path: string, lines: Lines) returns (outcome: Outcome)
      modifies store
      ensures Reached(Undo(w, old(store.docs), path, lines, old(store.budget)), outcome)
    {
      hide Parse, Serialize, AppendProvenance, ParseDataBlock, Find, RestoreTargets;
      var read := ReadProposal(w, store.docs, path);
      if read.None? { return Stale; }
      var p := read.value;
      if p.status == "superseded" && AlreadyUndone(store.docs[path]) { return Replay; }
      if p.status != "active" { return Stale; }
      if !Includes(store.docs[path], "approved by ") { return Stale; }
      outcome := RestoreAll(p.targets.paths, p.id, lines.onTarget);
      if outcome != Applied { return; }
      if path !in store.docs { return Stale; }
      var doc := Transitioned(w.o, store.docs[path], "superseded", lines.onProposal);
      if doc.None? { return Stale; }
      var ok := store.VerifiedWrite(path, doc.value);
      if !ok { return Died; }
      return Applied;
    }
  }
}
