/**
 * Backup capture: incremental flushes of a growing session into chunk jobs and one manifest, and
 * the round trip from any run of flushes, throws and restarts to the verifier's verdict.
 */
module BackupCapture {
  import opened Common
  import opened BackupChunks
  import opened BackupVerify

  datatype View = View(id: string, parent: ParentRef, text: Option<string>, omissions: seq<string>)

  /** What a flush reads from outside: the private flag, the exclusion rules, the redactor. */
  datatype Policy = Policy(
    isPrivate: bool,
    exclusionsValid: bool,
    excluded: string -> bool,
    redact: string -> Option<string>)

  datatype Omission = Omission(entryId: string, reason: string)

  /** `groups` is history: the entries behind each chunk record. */
  datatype Session = Session(
    covered: seq<string>,
    nextSeq: nat,
    chunks: seq<ManifestChunk>,
    omissions: seq<Omission>,
    groups: seq<seq<Entry>>)

  const Empty: Session := Session([], 0, [], [], [])

  datatype Owner = Owner(cfg: ChunkConfig, projectId: string, scope: string)

  datatype Job =
    | ChunkJob(seqNo: nat, entryIds: seq<string>, content: ChunkText, checksum: string)
    | ManifestJob(manifest: Manifest)

  datatype Outcome = Skipped | Captured | Threw

  datatype Flushed = Flushed(session: Session, jobs: seq<Job>, outcome: Outcome)

  // ---- one flush -------------------------------------------------------------------

  function ViewIds(views: seq<View>): (ids: seq<string>)
    ensures |ids| == |views|
    ensures forall i :: 0 <= i < |views| ==> ids[i] == views[i].id
  {
    seq(|views|, i requires 0 <= i < |views| => views[i].id)
  }

  /** Views not covered before, each id once. */
  function Fresh(views: seq<View>, covered: seq<string>): seq<View> {
    if views == [] then []
    else
      var init, v := views[..|views| - 1], views[|views| - 1];
      if v.id in covered || v.id in ViewIds(init) then Fresh(init, covered) else Fresh(init, covered) + [v]
  }

  /** An entry is omitted whole, held back uncovered, or kept with its redacted text. */
  datatype Fate = Omitted(reasons: seq<string>) | Held | Kept(entry: Entry, reasons: seq<string>)

  function FateOf(v: View, policy: Policy): Fate {
    if "extension-internal" in v.omissions then Omitted(["extension-internal"])
    else if v.text.None? then Omitted(if v.omissions == [] then ["contentless-entry"] else v.omissions)
    else if policy.excluded(v.text.value) then Omitted(["excluded-by-policy"])
    else
      match policy.redact(v.text.value)
      case None => Held
      case Some(text) => Kept(Entry(v.id, v.parent, text), v.omissions)
  }

  function Noted(id: string, reasons: seq<string>): seq<Omission> {
    seq(|reasons|, i requires 0 <= i < |reasons| => Omission(id, reasons[i]))
  }

  datatype Split = Split(kept: seq<Entry>, covered: seq<string>, omissions: seq<Omission>)

  function Add(s: Split, id: string, fate: Fate): Split {
    match fate
    case Held => s
    case Omitted(reasons) => Split(s.kept, s.covered + [id], s.omissions + Noted(id, reasons))
    case Kept(e, reasons) => Split(s.kept + [e], s.covered + [id], s.omissions + Noted(id, reasons))
  }

  function SplitViews(views: seq<View>, policy: Policy): Split {
    if views == [] then Split([], [], [])
    else
      var init, v := views[..|views| - 1], views[|views| - 1];
      Add(SplitViews(init, policy), v.id, FateOf(v, policy))
  }

  function RecordOf(d: Draft): ManifestChunk {
    ManifestChunk(d.seqNo, d.checksum, d.byteLength, d.entryIds, d.oversized)
  }

  function Records(drafts: seq<Draft>): seq<ManifestChunk> {
    seq(|drafts|, i requires 0 <= i < |drafts| => RecordOf(drafts[i]))
  }

  function JobOf(d: Draft): Job {
    ChunkJob(d.seqNo, d.entryIds, d.content, d.checksum)
  }

  function ChunkJobs(drafts: seq<Draft>): seq<Job> {
    seq(|drafts|, i requires 0 <= i < |drafts| => JobOf(drafts[i]))
  }

  /** `entryCount` and the end points come from all covered ids, omitted ones included. */
  function ManifestFor(o: Owner, s: Session): Manifest {
    Manifest(BACKUP_SCHEMA_VERSION, o.cfg.session, o.projectId, o.scope,
             if s.covered == [] then None else Some(s.covered[0]),
             if s.covered == [] then None else Some(s.covered[|s.covered| - 1]),
             |s.covered|, s.chunks)
  }

  function NewGroups(o: Owner, s: Session, views: seq<View>, policy: Policy): seq<seq<Entry>> {
    Groups(o.cfg, s.nextSeq, SplitViews(Fresh(views, s.covered), policy).kept)
  }

  /** The session once every chunk job is queued. */
  function Advanced(o: Owner, s: Session, views: seq<View>, policy: Policy): Session {
    var split := SplitViews(Fresh(views, s.covered), policy);
    var groups := NewGroups(o, s, views, policy);
    Session(s.covered + split.covered, s.nextSeq + |groups|,
            s.chunks + Records(Drafts(o.cfg, s.nextSeq, groups)),
            s.omissions + split.omissions, s.groups + groups)
  }

  /** `room`: how many enqueues succeed before one throws. */
  function Flush(o: Owner, s: Session, views: seq<View>, policy: Policy, room: nat): Flushed {
    if policy.isPrivate || !policy.exclusionsValid || Fresh(views, s.covered) == [] then Flushed(s, [], Skipped)
    else if o.cfg.maxBytes < MIN_CHUNK_BYTES then Flushed(s, [], Threw)
    else
      var groups := NewGroups(o, s, views, policy);
      var drafts := Drafts(o.cfg, s.nextSeq, groups);
      if room < |drafts| then
        Flushed(s.(chunks := s.chunks + Records(drafts[..room]), groups := s.groups + groups[..room]),
                ChunkJobs(drafts[..room]), Threw)
      else
        var after := Advanced(o, s, views, policy);
        if drafts == [] then Flushed(after, [], Captured)
        else if room == |drafts| then Flushed(after, ChunkJobs(drafts), Threw)
        else Flushed(after, ChunkJobs(drafts) + [ManifestJob(ManifestFor(o, after))], Captured)
  }

  /** What the state file holds after one rewrite. */
  function SavedAs(before: Session, after: Session, p: Persist): Session {
    if p == Fault(false) then before else after
  }

  // ---- the capture engine, in its own form -----------------------------------------

  class JobQueue {
    var jobs: seq<Job>
    var room: nat

    constructor (room: nat)
      ensures jobs == [] && this.room == room
    {
      jobs, this.room := [], room;
    }

    /** Throws when the queue refuses; otherwise the job is on disk when this returns. */
    method Enqueue(job: Job) returns (ok: bool)
      modifies this
      ensures ok <==> old(room) > 0
      ensures jobs == (if ok then old(jobs) + [job] else old(jobs))
      ensures room == (if ok then old(room) - 1 else old(room))
    {
      ok := room > 0;
      if ok {
        jobs := jobs + [job];
        room := room - 1;
      }
    }
  }

  class Engine {
    const owner: Owner
    const queue: JobQueue
    var covered: seq<string>
    var nextSeq: nat
    var chunks: seq<ManifestChunk>
    var omissions: seq<Omission>
    ghost var groups: seq<seq<Entry>>
    ghost var saved: Session  // what the state file holds

    ghost function Value(): Session
      reads this
    {
      Session(covered, nextSeq, chunks, omissions, groups)
    }

    constructor (owner: Owner, queue: JobQueue)
      ensures this.owner == owner && this.queue == queue
      ensures Value() == Empty && saved == Empty
    {
      this.owner, this.queue := owner, queue;
      covered, nextSeq, chunks, omissions, groups := [], 0, [], [], [];
      saved := Empty;
    }

    method Undelivered(views: seq<View>) returns (unseen: seq<View>)
      ensures unseen == Fresh(views, covered)
    {
      unseen := [];
      var done := set id | id in covered :: id;
      var seen: set<string> := {};
      for i := 0 to |views|
        invariant unseen == Fresh(views[..i], covered)
        invariant forall id :: id in done <==> id in covered
        invariant forall id :: id in seen <==> id in ViewIds(views[..i]) && id !in done
      {
        assert views[..i + 1][..i] == views[..i];
        var v := views[i];
        assert ViewIds(views[..i + 1]) == ViewIds(views[..i]) + [v.id];
        if v.id !in done && v.id !in seen {
          seen := seen + {v.id};
          unseen := unseen + [v];
        }
      }
      assert views[..|views|] == views;
    }

    method Sort(unseen: seq<View>, policy: Policy) returns (kept: seq<Entry>, now: seq<string>, notes: seq<Omission>)
      ensures Split(kept, now, notes) == SplitViews(unseen, policy)
    {
      kept, now, notes := [], [], [];
      for i := 0 to |unseen|
        invariant Split(kept, now, notes) == SplitViews(unseen[..i], policy)
      {
        assert unseen[..i + 1][..i] == unseen[..i];
        match FateOf(unseen[i], policy) {
          case Held =>
          case Omitted(reasons) =>
            notes := notes + Noted(unseen[i].id, reasons);
            now := now + [unseen[i].id];
          case Kept(e, reasons) =>
            kept := kept + [e];
            notes := notes + Noted(unseen[i].id, reasons);
            now := now + [unseen[i].id];
        }
      }
      assert unseen[..|unseen|] == unseen;
    }

    /** Queues the drafts in order; the record of a chunk is kept as soon as its job is queued. */
    method EnqueueChunks(drafts: seq<Draft>, ghost added: seq<seq<Entry>>) returns (ok: bool)
      requires |added| == |drafts|
      modifies this`chunks, this`groups, queue
      ensures ok <==> old(queue.room) >= |drafts|
      ensures var n := Min(old(queue.room), |drafts|);
              && queue.room == old(queue.room) - n
              && queue.jobs == old(queue.jobs) + ChunkJobs(drafts[..n])
              && chunks == old(chunks) + Records(drafts[..n])
              && groups == old(groups) + added[..n]
    {
      for i := 0 to |drafts|
        invariant i <= old(queue.room) && queue.room == old(queue.room) - i
        invariant queue.jobs == old(queue.jobs) + ChunkJobs(drafts[..i])
        invariant chunks == old(chunks) + Records(drafts[..i])
        invariant groups == old(groups) + added[..i]
      {
        ok := queue.Enqueue(JobOf(drafts[i]));
        if !ok {
          return false;
        }
        chunks := chunks + [RecordOf(drafts[i])];
        groups := groups + [added[i]];
        assert ChunkJobs(drafts[..i + 1]) == ChunkJobs(drafts[..i]) + [JobOf(drafts[i])];
        assert Records(drafts[..i + 1]) == Records(drafts[..i]) + [RecordOf(drafts[i])];
        assert added[..i + 1] == added[..i] + [added[i]];
      }
      return true;
    }

    method BuildManifest() returns (m: Manifest)
      ensures m == ManifestFor(owner, Value())
    {
      m := Manifest(BACKUP_SCHEMA_VERSION, owner.cfg.session, owner.projectId, owner.scope,
                    if |covered| == 0 then None else Some(covered[0]),
                    if |covered| == 0 then None else Some(covered[|covered| - 1]),
                    |covered|, chunks);
    }

    method Capture(views: seq<View>, policy: Policy, p: Persist) returns (outcome: Outcome)
      modifies this, queue
      ensures Value() == Flush(owner, old(Value()), views, policy, old(queue.room)).session
      ensures queue.jobs == old(queue.jobs) + Flush(owner, old(Value()), views, policy, old(queue.room)).jobs
      ensures var flushed := Flush(owner, old(Value()), views, policy, old(queue.room)).outcome;
              && outcome == (if flushed == Captured && p != Written then Threw else flushed)
              && saved == (if flushed == Captured then SavedAs(old(saved), Value(), p) else old(saved))
    {
      hide Groups, SplitViews, Fresh, ViewIds, ManifestFor;
      ghost var was := Value();
      if policy.isPrivate || !policy.exclusionsValid {
        return Skipped;
      }
      var unseen := Undelivered(views);
      if |unseen| == 0 {
        return Skipped;
      }
      var kept, now, notes := Sort(unseen, policy);
      var r := ChunkEntries(owner.cfg, kept, nextSeq);
      if r.Err? {
        return Threw;
      }
      var drafts := r.value;
      ghost var added := NewGroups(owner, was, views, policy);
      assert drafts == Drafts(owner.cfg, nextSeq, added);
      ghost var room := queue.room;
      var ok := EnqueueChunks(drafts, added);
      if !ok {
        return Threw;
      }
      assert drafts[..|drafts|] == drafts && added[..|drafts|] == added;
      covered := covered + now;
      nextSeq := nextSeq + |drafts|;
      omissions := omissions + notes;
      assert Value() == Advanced(owner, was, views, policy);
      if |drafts| > 0 {
        var manifest := BuildManifest();
        ok := queue.Enqueue(ManifestJob(manifest));
        if !ok {
          return Threw;
        }
      }
      saved := SavedAs(saved, Session(covered, nextSeq, chunks, omissions, groups), p);
      return if p == Written then Captured else Threw;
    }
  }
}
