/**
 * Three runs of the capture engine after which the backup on the backend is not what the capture
 * state says: an omission noted after the last manifest, a state file lost in a crash, and a
 * manifest the queue refused.
 */
module BackupRuns {
  import opened Common
  import opened BackupChunks
  import opened BackupVerify
  import opened BackupCapture
  import opened BackupRoundTrip

  const Open: Policy := Policy(false, true, (t: string) => false, (t: string) => Some(t))

  function Plain(e: Entry): View {
    View(e.id, e.parent, Some(e.body), [])
  }

  ghost predicate Small(o: Owner, a: Entry, c: Entry) {
    && o.cfg.maxBytes >= MIN_CHUNK_BYTES
    && Size(o.cfg, 0, [a]) <= o.cfg.maxBytes && Size(o.cfg, 0, [a, c]) <= o.cfg.maxBytes
    && a.id != "" && c.id != "" && a.id != c.id
    && a.parent == Root && c.parent == Parent(a.id)
  }

  lemma OneView(e: Entry, covered: seq<string>)
    ensures Fresh([Plain(e)], covered) == if e.id in covered then [] else [Plain(e)]
    ensures SplitViews([Plain(e)], Open) == Split([e], [e.id], [])
  {
    assert [Plain(e)][..0] == [];
    assert Fresh([], covered) == [];
    assert FateOf(Plain(e), Open) == Kept(e, []);
  }

  lemma TwoViews(a: Entry, v: View, covered: seq<string>)
    requires a.id != v.id
    ensures Fresh([Plain(a), v], covered) ==
              (if a.id in covered then [] else [Plain(a)]) + (if v.id in covered then [] else [v])
    ensures SplitViews([Plain(a), v], Open) == Add(Split([a], [a.id], []), v.id, FateOf(v, Open))
  {
    OneView(a, covered);
    NextView([Plain(a)], v, covered);
    hide SplitViews, Fresh, FateOf, Add;
    assert [Plain(a)] + [v] == [Plain(a), v];
    assert ViewIds([Plain(a)]) == [a.id];
  }

  lemma NextView(views: seq<View>, v: View, covered: seq<string>)
    ensures Fresh(views + [v], covered) ==
              if v.id in covered || v.id in ViewIds(views) then Fresh(views, covered) else Fresh(views, covered) + [v]
    ensures SplitViews(views + [v], Open) == Add(SplitViews(views, Open), v.id, FateOf(v, Open))
  {
    hide FateOf, Add, ViewIds;
    assert (views + [v])[..|views|] == views;
  }

  lemma SingleGroup(cfg: ChunkConfig, n: nat, e: Entry)
    ensures Groups(cfg, n, [e]) == [[e]]
  {
    assert [e][..0] == [] && [] + [e] == [e];
    assert Grow(cfg, n, []) == Grouping([], []);
  }

  /** The first flush of all three runs. */
  function AfterOne(o: Owner, a: Entry): Session {
    Session([a.id], 1, [RecordOf(MakeDraft(o.cfg, 0, [a]))], [], [[a]])
  }

  function FirstEvent(a: Entry, p: Persist): Event {
    Capture([Plain(a)], Open, 2, false, p)
  }

  lemma OneDraft(cfg: ChunkConfig, n: nat, g: seq<Entry>)
    ensures var d := MakeDraft(cfg, n, g);
            Drafts(cfg, n, [g]) == [d] && Records([d]) == [RecordOf(d)] && ChunkJobs([d]) == [JobOf(d)]
  {
    hide MakeDraft;
  }

  lemma NoDrafts()
    ensures Records([]) == [] && ChunkJobs([]) == []
  {
  }

  /** The session once the one chunk of `g` is queued. */
  function WithGroup(o: Owner, s: Session, ids: seq<string>, g: seq<Entry>): Session {
    Session(s.covered + ids, s.nextSeq + 1, s.chunks + [RecordOf(MakeDraft(o.cfg, s.nextSeq, g))], s.omissions, s.groups + [g])
  }

  /** A flush whose views all go into one chunk, whatever room there is. */
  lemma OneChunkFlush(o: Owner, s: Session, views: seq<View>, ids: seq<string>, g: seq<Entry>, room: nat)
    requires o.cfg.maxBytes >= MIN_CHUNK_BYTES && Fresh(views, s.covered) == views && views != []
    requires SplitViews(views, Open) == Split(g, ids, []) && Groups(o.cfg, s.nextSeq, g) == [g]
    ensures var job, after := JobOf(MakeDraft(o.cfg, s.nextSeq, g)), WithGroup(o, s, ids, g);
            Flush(o, s, views, Open, room) ==
              if room == 0 then Flushed(s, [], Threw)
              else if room == 1 then Flushed(after, [job], Threw)
              else Flushed(after, [job, ManifestJob(ManifestFor(o, after))], Captured)
    ensures room == 0 ==> Refused(o, s, views, Open, 0) == Some(Stray(JobOf(MakeDraft(o.cfg, s.nextSeq, g)), s))
  {
    hide Fresh, SplitViews, Groups, MakeDraft, Drafts, Records, ChunkJobs;
    OneDraft(o.cfg, s.nextSeq, g);
    NoDrafts();
    var d := MakeDraft(o.cfg, s.nextSeq, g);
    assert NewGroups(o, s, views, Open) == [g];
    assert [d][..0] == [] && [g][..0] == [];
    assert Advanced(o, s, views, Open) == WithGroup(o, s, ids, g);
  }

  lemma QueueOne(st: Store, job: Job, from: Session)
    requires job.ChunkJob?
    ensures Queue(st, [job], from) == if job.seqNo in st.sent then st else st.(sent := st.sent[job.seqNo := job.content])
  {
    assert [job][..0] == [];
    assert Deliver(st.sent, []) == st.sent;
  }

  lemma QueueTwo(st: Store, job: Job, m: Manifest, from: Session)
    requires job.ChunkJob?
    ensures Queue(st, [job, ManifestJob(m)], from) ==
              Queue(st, [job], from).(manifest := Some(m), built := from, manifests := st.manifests + 1)
  {
    hide Deliver;
    assert [job] + [ManifestJob(m)] == [job, ManifestJob(m)];
    DeliverSkips(st.sent, [job], m);
  }

  lemma DeliverSkips(sent: map<int, ChunkText>, jobs: seq<Job>, m: Manifest)
    ensures Deliver(sent, jobs + [ManifestJob(m)]) == Deliver(sent, jobs)
  {
    assert (jobs + [ManifestJob(m)])[..|jobs|] == jobs;
  }

  lemma FirstFlush(o: Owner, a: Entry, c: Entry, p: Persist)
    requires Small(o, a, c)
    ensures Apply(o, Nothing, FirstEvent(a, p)) ==
              Store(AfterOne(o, a), SavedAs(Empty, AfterOne(o, a), p), map[0 := SerializeChunk(o.cfg.session, 0, [a])],
                    Some(ManifestFor(o, AfterOne(o, a))), AfterOne(o, a), 1, None)
  {
    hide Flush, Queue, Refused, Groups, Fresh, SplitViews, SerializeChunk, ManifestFor;
    OneView(a, []);
    SingleGroup(o.cfg, 0, a);
    OneChunkFlush(o, Empty, [Plain(a)], [a.id], [a], 2);
    var after, job := AfterOne(o, a), JobOf(MakeDraft(o.cfg, 0, [a]));
    assert WithGroup(o, Empty, [a.id], [a]) == after;
    var saved := Nothing.(mem := after, disk := SavedAs(Empty, after, p));
    QueueTwo(saved, job, ManifestFor(o, after), after);
    QueueOne(saved, job, after);
  }

  lemma RunThree(o: Owner, st: Store, a: Event, b: Event, c: Event)
    ensures Run(o, st, [a, b]) == Apply(o, Apply(o, st, a), b)
    ensures Run(o, st, [a, b, c]) == Apply(o, Apply(o, Apply(o, st, a), b), c)
  {
    hide Apply;
    assert [a, b, c][1..] == [b, c] && [b, c][1..] == [c] && [a, b][1..] == [b];
    assert Run(o, Apply(o, Apply(o, st, a), b), [c]) == Run(o, Apply(o, Apply(o, Apply(o, st, a), b), c), []);
    assert Run(o, Apply(o, st, a), [b]) == Run(o, Apply(o, Apply(o, st, a), b), []);
  }

  /**
   * An entry omitted after the last manifest: the state counts it, the manifest on the backend does
   * not, and the backup still verifies, though a manifest built now would not.
   */
  lemma LaterOmissionLeavesTheBackup(o: Owner, a: Entry, c: Entry) returns (events: seq<Event>)
    requires Small(o, a, c)
    ensures NamedRun(events)
    ensures var st := Run(o, Nothing, events);
            && OmittedWhole(st.mem, c.id)
            && st.manifest.Some? && Verdict(o, st) == []
            && EntryCountMismatch in Check(InputOf(o, st.sent, ManifestFor(o, st.mem)))
  {
    hide Flush, SerializeChunk, Check, Good, FirstIsDeclared, Orphan, MakeDraft, Deliver, Flatten, AllLinked;
    var v := View(c.id, c.parent, None, []);
    var second := Capture([Plain(a), v], Open, 2, false, Written);
    events := [FirstEvent(a, Written), second];
    RunThree(o, Nothing, FirstEvent(a, Written), second, Restart(false));
    FirstFlush(o, a, c, Written);
    var one := Apply(o, Nothing, FirstEvent(a, Written));
    OmissionFlush(o, a, v, AfterOne(o, a));
    var st := Apply(o, one, second);
    LinkedOne(a);
    OneGood(o, a, c);
    OneIsDelivered(o, a, one.sent);
    VerdictOnDeclared(o, st.built, st.sent);
    VerdictOnDeclared(o, st.mem, st.sent);
    assert OmittedWhole(st.mem, c.id);
  }

  lemma OmissionFlush(o: Owner, a: Entry, v: View, s: Session)
    requires s.covered == [a.id] && v.id != a.id && v.text.None? && v.omissions == []
    ensures Flush(o, s, [Plain(a), v], Open, 2).session ==
              if o.cfg.maxBytes < MIN_CHUNK_BYTES then s
              else s.(covered := [a.id, v.id], omissions := s.omissions + [Omission(v.id, "contentless-entry")])
    ensures Flush(o, s, [Plain(a), v], Open, 2).jobs == []
  {
    hide Groups;
    TwoViews(a, v, s.covered);
    assert Fresh([Plain(a), v], s.covered) == [v];
    assert [v][..0] == [];
    assert SplitViews([v], Open) == Split([], [v.id], [Omission(v.id, "contentless-entry")]);
    NoGroups(o.cfg, s.nextSeq);
    hide Fresh, SplitViews;
    assert NewGroups(o, s, [Plain(a), v], Open) == [];
    assert Records(Drafts(o.cfg, s.nextSeq, [])) == [];
  }

  lemma NoGroups(cfg: ChunkConfig, n: nat)
    ensures Groups(cfg, n, []) == []
  {
  }

  lemma LinkedOne(a: Entry)
    requires a.parent == Root
    ensures Flatten([[a]]) == [a] && AllLinked([a]) && Ids([a]) == [a.id]
  {
    assert [[a]][..0] == [];
  }

  lemma SubseqTwo(a: string, c: string)
    ensures Subseq([a], [a, c]) && Subseq([a], [a])
  {
    assert [a][1..] == [];
  }

  lemma OneGood(o: Owner, a: Entry, c: Entry)
    requires Small(o, a, c)
    ensures Good(o, AfterOne(o, a))
    ensures forall notes :: Good(o, AfterOne(o, a).(covered := [a.id, c.id], omissions := notes))
  {
    hide MakeDraft, Drafts;
    LinkedOne(a);
    SubseqTwo(a.id, a.id);
    SubseqTwo(a.id, c.id);
    OneDraft(o.cfg, 0, [a]);
  }

  lemma OneIsDelivered(o: Owner, a: Entry, sent: map<int, ChunkText>)
    requires sent == map[0 := SerializeChunk(o.cfg.session, 0, [a])]
    ensures Deliver(sent, []) == sent
    ensures FirstIsDeclared(o, sent, [[a]]) && !Orphan(sent, [[a]])
  {
    hide SerializeChunk;
  }

  /**
   * The state file was not written before a crash, and one more entry fits the chunk: the path keeps
   * the first content while the new manifest declares the second.
   */
  lemma LostStateNeverVerifies(o: Owner, a: Entry, c: Entry) returns (events: seq<Event>)
    requires Small(o, a, c) && CollisionFree(o.cfg.codec)
    ensures NamedRun(events)
    ensures var st := Run(o, Nothing, events);
            && st.manifest.Some? && !Torn(st.built) && !Orphan(st.sent, st.built.groups)
            && (forall id :: !OmittedWhole(st.built, id)) && AllLinked(Flatten(st.built.groups))
            && Verdict(o, st) != []
  {
    hide Flush, SerializeChunk, Check, FirstIsDeclared, Orphan, MakeDraft, Flatten, AllLinked, CollisionFree, Verdict;
    var first, last := FirstEvent(a, Fault(false)), Capture([Plain(a), Plain(c)], Open, 2, false, Written);
    events := [first, Restart(false), last];
    RunThree(o, Nothing, first, Restart(false), last);
    FirstFlush(o, a, c, Fault(false));
    var two := Apply(o, Apply(o, Nothing, first), Restart(false));
    SecondFlush(o, a, c, two);
    TextsDiffer(o, a, c, two.sent);
    LinkedTwo(a, c);
    hide Apply;
    CaptureThenVerify(o, events);
  }

  lemma TextsDiffer(o: Owner, a: Entry, c: Entry, sent: map<int, ChunkText>)
    requires sent == map[0 := SerializeChunk(o.cfg.session, 0, [a])]
    ensures !FirstIsDeclared(o, sent, [[a, c]]) && !Orphan(sent, [[a, c]])
  {
    assert |RawEntries([a])| != |RawEntries([a, c])|;
    assert [[a, c]][0] == [a, c];
  }

  lemma SecondFlush(o: Owner, a: Entry, c: Entry, st: Store)
    requires Small(o, a, c) && st.mem == Empty && 0 in st.sent && st.sent.Keys == {0}
    ensures var after := Apply(o, st, Capture([Plain(a), Plain(c)], Open, 2, false, Written));
            && after.sent == st.sent && after.manifest.Some?
            && after.built == Session([a.id, c.id], 1, [RecordOf(MakeDraft(o.cfg, 0, [a, c]))], [], [[a, c]])
  {
    hide Flush, Queue, Refused, Groups, Fresh, SplitViews, SerializeChunk, ManifestFor, StrayAfter, Size;
    var views := [Plain(a), Plain(c)];
    BothKept(a, c);
    TwoFit(o.cfg, a, c);
    OneChunkFlush(o, Empty, views, [a.id, c.id], [a, c], 2);
    var built, job := WithGroup(o, Empty, [a.id, c.id], [a, c]), JobOf(MakeDraft(o.cfg, 0, [a, c]));
    assert built == Session([a.id, c.id], 1, [RecordOf(MakeDraft(o.cfg, 0, [a, c]))], [], [[a, c]]);
    var saved := st.(mem := built, disk := SavedAs(st.disk, built, Written), stray := StrayAfter(o, st, views, Open, 2, false));
    QueueTwo(saved, job, ManifestFor(o, built), built);
    QueueOne(saved, job, built);
  }

  lemma BothKept(a: Entry, c: Entry)
    requires a.id != c.id
    ensures Fresh([Plain(a), Plain(c)], []) == [Plain(a), Plain(c)]
    ensures SplitViews([Plain(a), Plain(c)], Open) == Split([a, c], [a.id, c.id], [])
  {
    TwoViews(a, Plain(c), []);
    hide SplitViews, Fresh;
  }

  lemma TwoFit(cfg: ChunkConfig, a: Entry, c: Entry)
    requires Size(cfg, 0, [a]) <= cfg.maxBytes && Size(cfg, 0, [a, c]) <= cfg.maxBytes
    ensures Groups(cfg, 0, [a, c]) == [[a, c]]
  {
    hide Size;
    assert [a][..0] == [] && [] + [a] == [a];
    assert Grow(cfg, 0, [a]) == Grouping([], [a]);
    assert [a, c][..1] == [a] && [a] + [c] == [a, c];
  }

  lemma LinkedTwo(a: Entry, c: Entry)
    requires a.parent == Root && c.parent == Parent(a.id)
    ensures Flatten([[a, c]]) == [a, c] && AllLinked([a, c]) && Ids([a, c]) == [a.id, c.id]
  {
    assert [[a, c]][..0] == [];
    assert [a, c][..1] == [a] && Ids([a]) == [a.id];
  }

  /** The queue refuses a manifest after its chunk: the probe finds the chunk, undeclared. */
  lemma RefusedManifestNeverVerifies(o: Owner, a: Entry, c: Entry) returns (events: seq<Event>)
    requires Small(o, a, c) && CollisionFree(o.cfg.codec)
    ensures NamedRun(events)
    ensures var st := Run(o, Nothing, events);
            && st.manifest.Some? && !Torn(st.built) && FirstIsDeclared(o, st.sent, st.built.groups)
            && (forall id :: !OmittedWhole(st.built, id)) && AllLinked(Flatten(st.built.groups))
            && Verdict(o, st) != []
  {
    hide Flush, SerializeChunk, Check, FirstIsDeclared, Orphan, MakeDraft, Flatten, AllLinked, CollisionFree, Verdict;
    var second := Capture([Plain(c)], Open, 1, false, Written);
    events := [FirstEvent(a, Written), second];
    RunThree(o, Nothing, FirstEvent(a, Written), second, Restart(false));
    FirstFlush(o, a, c, Written);
    var one := Apply(o, Nothing, FirstEvent(a, Written));
    RefusedFlush(o, a, c, one);
    LinkedOne(a);
    BothDelivered(o, a, c, Apply(o, one, second).sent);
    hide Apply;
    CaptureThenVerify(o, events);
  }

  lemma BothDelivered(o: Owner, a: Entry, c: Entry, sent: map<int, ChunkText>)
    requires sent == map[0 := SerializeChunk(o.cfg.session, 0, [a]), 1 := SerializeChunk(o.cfg.session, 1, [c])]
    ensures FirstIsDeclared(o, sent, [[a]]) && Orphan(sent, [[a]])
  {
    hide SerializeChunk;
  }

  lemma RefusedFlush(o: Owner, a: Entry, c: Entry, st: Store)
    requires Small(o, a, c) && st.mem == AfterOne(o, a) && st.sent.Keys == {0}
    ensures var after := Apply(o, st, Capture([Plain(c)], Open, 1, false, Written));
            && after.manifest == st.manifest && after.built == st.built
            && after.sent == st.sent[1 := SerializeChunk(o.cfg.session, 1, [c])]
  {
    hide Flush, Queue, Refused, Groups, Fresh, SplitViews, SerializeChunk, StrayAfter;
    OneView(c, [a.id]);
    SingleGroup(o.cfg, 1, c);
    OneChunkFlush(o, st.mem, [Plain(c)], [c.id], [c], 1);
    var after := WithGroup(o, st.mem, [c.id], [c]);
    QueueOne(st.(mem := after, stray := StrayAfter(o, st, [Plain(c)], Open, 1, false)), JobOf(MakeDraft(o.cfg, 1, [c])), after);
  }

  /**
   * The first enqueue throws behind the rename and the process restarts before the journal is
   * rewritten: its job is delivered, while the state knows nothing of it and packs one more entry.
   */
  lemma FoundJobNeverVerifies(o: Owner, a: Entry, c: Entry) returns (events: seq<Event>)
    requires Small(o, a, c) && CollisionFree(o.cfg.codec)
    ensures NamedRun(events)
    ensures var st := Run(o, Nothing, events);
            && st.manifest.Some? && !Torn(st.built) && !Orphan(st.sent, st.built.groups)
            && (forall id :: !OmittedWhole(st.built, id)) && AllLinked(Flatten(st.built.groups))
            && Verdict(o, st) != []
  {
    hide Flush, SerializeChunk, Check, FirstIsDeclared, Orphan, MakeDraft, Flatten, AllLinked, CollisionFree, Verdict, Queue, Refused;
    var first := Capture([Plain(a)], Open, 0, true, Written);
    var last := Capture([Plain(a), Plain(c)], Open, 2, false, Written);
    events := [first, Restart(true), last];
    RunThree(o, Nothing, first, Restart(true), last);
    ThrownThenFound(o, a, c);
    var two := Apply(o, Apply(o, Nothing, first), Restart(true));
    SecondFlush(o, a, c, two);
    TextsDiffer(o, a, c, two.sent);
    LinkedTwo(a, c);
    hide Apply;
    CaptureThenVerify(o, events);
  }

  lemma ThrownThenFound(o: Owner, a: Entry, c: Entry)
    requires Small(o, a, c)
    ensures Apply(o, Apply(o, Nothing, Capture([Plain(a)], Open, 0, true, Written)), Restart(true)) ==
              Nothing.(sent := map[0 := SerializeChunk(o.cfg.session, 0, [a])])
  {
    hide Flush, Queue, Refused, Groups, Fresh, SplitViews, SerializeChunk;
    OneView(a, []);
    SingleGroup(o.cfg, 0, a);
    OneChunkFlush(o, Empty, [Plain(a)], [a.id], [a], 0);
    var job := JobOf(MakeDraft(o.cfg, 0, [a]));
    var thrown := Nothing.(stray := Some(Stray(job, Empty)));
    QueueNothing(thrown, Empty);
    QueueOne(Nothing, job, Empty);
  }

  lemma QueueNothing(st: Store, from: Session)
    ensures Queue(st, [], from) == st
  {
    assert Deliver(st.sent, []) == st.sent;
  }
}
