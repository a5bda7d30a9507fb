/**
 * From any run of capture flushes to the verifier's verdict: exactly when the backup on the backend,
 * write-once chunks and the last manifest, passes verification.
 */
module BackupRoundTrip {
  import opened Common
  import opened BackupChunks
  import opened BackupVerify
  import opened BackupCapture

  // ---- subsequences ------------------------------------------------------------------

  predicate Subseq(a: seq<string>, b: seq<string>)
    decreases |b|
  {
    || a == []
    || (b != [] && ((a[0] == b[0] && Subseq(a[1..], b[1..])) || Subseq(a, b[1..])))
  }

  lemma {:induction false} SubseqConcat(a: seq<string>, b: seq<string>, c: seq<string>, d: seq<string>)
    requires Subseq(a, b) && Subseq(c, d)
    ensures Subseq(a + c, b + d)
    decreases |b|
  {
    if b == [] {
      assert a + c == c && b + d == d;
    } else {
      assert (b + d)[1..] == b[1..] + d && (b + d)[0] == b[0];
      if a == [] {
        SubseqConcat(a, b[1..], c, d);
      } else if Subseq(a, b[1..]) {
        SubseqConcat(a, b[1..], c, d);
      } else {
        SubseqConcat(a[1..], b[1..], c, d);
        assert (a + c)[1..] == a[1..] + c && (a + c)[0] == a[0];
      }
    }
  }

  lemma {:induction false} SubseqRefl(a: seq<string>)
    ensures Subseq(a, a)
  {
    if a != [] { SubseqRefl(a[1..]); }
  }

  lemma {:induction false} SubseqMembers(a: seq<string>, b: seq<string>)
    requires Subseq(a, b)
    ensures |a| <= |b|
    ensures forall x :: x in a ==> x in b
    decreases |b|
  {
    if a != [] {
      if Subseq(a, b[1..]) {
        SubseqMembers(a, b[1..]);
      } else {
        SubseqMembers(a[1..], b[1..]);
        assert forall x :: x in a ==> x == a[0] || x in a[1..];
      }
    }
  }

  lemma DistinctTail(a: seq<string>)
    requires Distinct(a) && a != []
    ensures Distinct(a[1..]) && a[0] !in a[1..]
  {
  }

  lemma DistinctCons(a: seq<string>)
    requires a != [] && Distinct(a[1..]) && a[0] !in a[1..]
    ensures Distinct(a)
  {
  }

  lemma {:induction false} SubseqDistinct(a: seq<string>, b: seq<string>)
    requires Subseq(a, b) && Distinct(b)
    ensures Distinct(a)
    decreases |b|
  {
    hide Distinct;
    if a == [] {
      EmptyDistinct();
    } else {
      DistinctTail(b);
      if Subseq(a, b[1..]) {
        SubseqDistinct(a, b[1..]);
      } else {
        SubseqDistinct(a[1..], b[1..]);
        SubseqMembers(a[1..], b[1..]);
        DistinctCons(a);
      }
    }
  }

  lemma EmptyDistinct()
    ensures Distinct([])
  {
  }

  /** A subsequence of a duplicate-free list with the same members is that list. */
  lemma {:induction false} SubseqWhole(a: seq<string>, b: seq<string>)
    requires Subseq(a, b) && Distinct(b)
    ensures (forall x :: x in b ==> x in a) <==> |a| == |b|
    ensures |a| == |b| ==> a == b
    decreases |b|
  {
    hide Distinct;
    if b != [] {
      DistinctTail(b);
      if Subseq(a, b[1..]) {
        SubseqMembers(a, b[1..]);
        assert b[0] in b && b[0] !in a;
      } else {
        SubseqWhole(a[1..], b[1..]);
        assert a == [a[0]] + a[1..] && b == [b[0]] + b[1..];
        SubseqMembers(a[1..], b[1..]);
        if forall x :: x in b ==> x in a {
          forall x | x in b[1..] ensures x in a[1..] {
            assert x in a;
          }
        }
      }
    }
  }

  // ---- one flush ------------------------------------------------------------------------

  ghost predicate NamedViews(views: seq<View>) {
    forall v :: v in views ==> v.id != ""
  }

  lemma ViewIdsPush(views: seq<View>, v: View)
    ensures ViewIds(views + [v]) == ViewIds(views) + [v.id]
  {
  }

  lemma {:induction false} FreshMembers(views: seq<View>, covered: seq<string>)
    ensures forall v :: v in Fresh(views, covered) ==> v in views && v.id !in covered
    ensures forall id :: id in ViewIds(Fresh(views, covered)) ==> id in ViewIds(views) && id !in covered
  {
    if views != [] {
      var init, v := views[..|views| - 1], views[|views| - 1];
      assert views == init + [v];
      FreshMembers(init, covered);
      ViewIdsPush(init, v);
      ViewIdsPush(Fresh(init, covered), v);
    }
  }

  lemma {:induction false} FreshDistinct(views: seq<View>, covered: seq<string>)
    requires Distinct(covered)
    ensures Distinct(covered + ViewIds(Fresh(views, covered)))
  {
    if views == [] {
      assert covered + ViewIds([]) == covered;
    } else {
      var init, v := views[..|views| - 1], views[|views| - 1];
      var f := Fresh(init, covered);
      FreshDistinct(init, covered);
      if !(v.id in covered || v.id in ViewIds(init)) {
        FreshMembers(init, covered);
        ViewIdsPush(f, v);
        assert covered + ViewIds(f + [v]) == covered + ViewIds(f) + [v.id];
      }
    }
  }

  lemma FateKeepsId(v: View, policy: Policy)
    ensures FateOf(v, policy).Kept? ==> FateOf(v, policy).entry.id == v.id
  {
  }

  lemma {:induction false} SplitOrder(views: seq<View>, policy: Policy)
    ensures var s := SplitViews(views, policy);
            Subseq(Ids(s.kept), s.covered) && Subseq(s.covered, ViewIds(views))
    ensures NamedViews(views) ==> Named(SplitViews(views, policy).kept)
  {
    if views != [] {
      var init, v := views[..|views| - 1], views[|views| - 1];
      var s := SplitViews(init, policy);
      SplitOrder(init, policy);
      assert views == init + [v];
      ViewIdsPush(init, v);
      SubseqRefl([v.id]);
      SubseqConcat(s.covered, ViewIds(init), [v.id], [v.id]);
      SubseqConcat(s.covered, ViewIds(init), [], [v.id]);
      SubseqConcat(Ids(s.kept), s.covered, [v.id], [v.id]);
      SubseqConcat(Ids(s.kept), s.covered, [], [v.id]);
      assert Ids(s.kept) + [] == Ids(s.kept) && s.covered + [] == s.covered;
      hide Subseq, Ids, ViewIds, FateOf;
      FateKeepsId(v, policy);
      match FateOf(v, policy) {
        case Kept(e, _) => IdsPush(s.kept, e);
        case _ =>
      }
    }
  }

  // ---- the capture state ---------------------------------------------------------------

  /** Records, numbering and coverage agree, as after any flush that queued all its chunks. */
  ghost predicate Good(o: Owner, s: Session) {
    && s.nextSeq == |s.groups|
    && s.chunks == Records(Drafts(o.cfg, 0, s.groups))
    && Distinct(s.covered)
    && Subseq(Ids(Flatten(s.groups)), s.covered)
    && Named(Flatten(s.groups))
  }

  /** A throw in the middle of queueing: chunk records ahead of `nextSeq`. */
  predicate Torn(s: Session) {
    |s.chunks| != s.nextSeq
  }

  lemma DraftsConcat(cfg: ChunkConfig, a: seq<seq<Entry>>, b: seq<seq<Entry>>)
    ensures Records(Drafts(cfg, 0, a + b)) == Records(Drafts(cfg, 0, a)) + Records(Drafts(cfg, |a|, b))
  {
  }

  lemma AdvancedIsGood(o: Owner, s: Session, views: seq<View>, policy: Policy)
    requires Good(o, s) && NamedViews(views)
    ensures Good(o, Advanced(o, s, views, policy))
  {
    hide Drafts, Records, Distinct, Subseq;
    var unseen := Fresh(views, s.covered);
    var split := SplitViews(unseen, policy);
    var groups := NewGroups(o, s, views, policy);
    FreshMembers(views, s.covered);
    FreshDistinct(views, s.covered);
    SplitOrder(unseen, policy);
    GroupsConcatenate(o.cfg, s.nextSeq, split.kept);
    FlattenConcat(s.groups, groups);
    IdsConcat(Flatten(s.groups), split.kept);
    SubseqConcat(Ids(Flatten(s.groups)), s.covered, Ids(split.kept), split.covered);
    SubseqRefl(s.covered);
    SubseqConcat(s.covered, s.covered, split.covered, ViewIds(unseen));
    SubseqDistinct(s.covered + split.covered, s.covered + ViewIds(unseen));
    DraftsConcat(o.cfg, s.groups, groups);
  }

  // ---- runs -----------------------------------------------------------------------------

  /** A job whose enqueue threw behind the rename: in the journal file, not in memory. */
  datatype Stray = Stray(job: Job, from: Session)

  /**
   * `sent` is what each chunk path holds once every queued job was delivered: chunk paths are
   * write-once, so the first content queued for a path stays, and a later job with another content
   * is quarantined. `manifest` is the last manifest queued; its path is rewritten. `built` and
   * `manifests` are history: the state that manifest was built from, and how many were queued.
   */
  datatype Store = Store(
    mem: Session,
    disk: Session,
    sent: map<int, ChunkText>,
    manifest: Option<Manifest>,
    built: Session,
    manifests: nat,
    stray: Option<Stray>)

  const Nothing: Store := Store(Empty, Empty, map[], None, Empty, 0, None)

  /**
   * `behind`: an enqueue that throws leaves its job in the journal file. `found`: at the restart the
   * job is still there, since nothing rewrote the file.
   */
  datatype Event =
    | Capture(views: seq<View>, policy: Policy, room: nat, behind: bool, persist: Persist)
    | Restart(found: bool)

  function Deliver(sent: map<int, ChunkText>, jobs: seq<Job>): map<int, ChunkText> {
    if jobs == [] then sent
    else
      var before := Deliver(sent, jobs[..|jobs| - 1]);
      match jobs[|jobs| - 1]
      case ManifestJob(_) => before
      case ChunkJob(n, _, content, _) => if n in before then before else before[n := content]
  }

  /** The manifest comes last, after every chunk job of its flush. */
  function NewManifest(jobs: seq<Job>): Option<Manifest> {
    if jobs != [] && jobs[|jobs| - 1].ManifestJob? then Some(jobs[|jobs| - 1].manifest) else None
  }

  function Queue(st: Store, jobs: seq<Job>, from: Session): Store {
    var after := st.(sent := Deliver(st.sent, jobs));
    match NewManifest(jobs)
    case None => after
    case Some(m) => after.(manifest := Some(m), built := from, manifests := st.manifests + 1)
  }

  /** The job at which a flush threw, and the state behind that throw. */
  function Refused(o: Owner, s: Session, views: seq<View>, policy: Policy, room: nat): Option<Stray> {
    var f := Flush(o, s, views, policy, room);
    var drafts := Drafts(o.cfg, s.nextSeq, NewGroups(o, s, views, policy));
    if f.outcome != Threw || o.cfg.maxBytes < MIN_CHUNK_BYTES then None
    else if room < |drafts| then Some(Stray(JobOf(drafts[room]), f.session))
    else Some(Stray(ManifestJob(ManifestFor(o, f.session)), f.session))
  }

  function StrayAfter(o: Owner, st: Store, views: seq<View>, policy: Policy, room: nat, behind: bool): Option<Stray> {
    if behind && Refused(o, st.mem, views, policy, room).Some? then Refused(o, st.mem, views, policy, room)
    else if Flush(o, st.mem, views, policy, room).jobs != [] then None
    else st.stray
  }

  function Apply(o: Owner, st: Store, e: Event): Store {
    match e
    case Restart(found) =>
      var back := st.(mem := st.disk, stray := None);
      if found && st.stray.Some? then Queue(back, [st.stray.value.job], st.stray.value.from) else back
    case Capture(views, policy, room, behind, p) =>
      var f := Flush(o, st.mem, views, policy, room);
      Queue(st.(mem := f.session,
                disk := if f.outcome == Captured then SavedAs(st.disk, f.session, p) else st.disk,
                stray := StrayAfter(o, st, views, policy, room, behind)),
            f.jobs, f.session)
  }

  function Run(o: Owner, st: Store, events: seq<Event>): Store
    decreases |events|
  {
    if events == [] then st else Run(o, Apply(o, st, events[0]), events[1..])
  }

  /** Views without an id never reach the capture engine. */
  ghost predicate NamedRun(events: seq<Event>) {
    forall e :: e in events && e.Capture? ==> NamedViews(e.views)
  }

  // ---- what every run keeps ---------------------------------------------------------------

  ghost predicate Repeats(chunks: seq<ManifestChunk>) {
    exists i, j :: 0 <= i < j < |chunks| && chunks[i].seqNo == chunks[j].seqNo && chunks[i].entryIds != []
  }

  /** Some record already uses the number the next chunk will get. */
  ghost predicate NextIsTaken(s: Session) {
    exists k :: 0 <= k < |s.chunks| && s.chunks[k].seqNo == s.nextSeq && s.chunks[k].entryIds != []
  }

  ghost predicate Spoiled(s: Session) {
    |s.chunks| > s.nextSeq && (Repeats(s.chunks) || NextIsTaken(s))
  }

  ghost predicate SessionOk(o: Owner, s: Session) {
    Good(o, s) || Spoiled(s)
  }

  /** A state some manifest is built from. */
  ghost predicate Declares(o: Owner, s: Session) {
    s.chunks != [] && (Good(o, s) || (Torn(s) && Repeats(s.chunks)))
  }

  ghost predicate ManifestOk(o: Owner, st: Store) {
    st.manifest.Some? ==> st.manifest.value == ManifestFor(o, st.built) && Declares(o, st.built)
  }

  ghost predicate StrayOk(o: Owner, stray: Option<Stray>) {
    stray.Some? && stray.value.job.ManifestJob? ==>
      stray.value.job.manifest == ManifestFor(o, stray.value.from) && Declares(o, stray.value.from)
  }

  ghost predicate Inv(o: Owner, st: Store) {
    SessionOk(o, st.mem) && SessionOk(o, st.disk) && ManifestOk(o, st) && StrayOk(o, st.stray)
  }

  /** The records a flush adds are numbered on from `nextSeq`, and none is empty. */
  lemma NewRecords(o: Owner, s: Session, views: seq<View>, policy: Policy)
    ensures var groups := NewGroups(o, s, views, policy);
            var records := Records(Drafts(o.cfg, s.nextSeq, groups));
            && |records| == |groups|
            && (records != [] ==> records[0].seqNo == s.nextSeq && records[0].entryIds != [])
  {
    var kept := SplitViews(Fresh(views, s.covered), policy).kept;
    if NewGroups(o, s, views, policy) != [] {
      DraftsRespectTheCap(o.cfg, s.nextSeq, kept, 0);
    }
    hide Groups, SplitViews, Fresh, SerializeChunk;
  }

  lemma MoreRecords(s: Session, t: Session, more: seq<ManifestChunk>)
    requires t.chunks == s.chunks + more
    requires more != [] ==> more[0].seqNo == s.nextSeq && more[0].entryIds != []
    ensures Repeats(s.chunks) ==> Repeats(t.chunks)
    ensures NextIsTaken(s) && more != [] ==> Repeats(t.chunks)
    ensures more != [] && t.nextSeq == s.nextSeq ==> NextIsTaken(t)
    ensures NextIsTaken(s) && t.nextSeq == s.nextSeq ==> NextIsTaken(t)
  {
    if Repeats(s.chunks) {
      var i, j :| 0 <= i < j < |s.chunks| && s.chunks[i].seqNo == s.chunks[j].seqNo && s.chunks[i].entryIds != [];
      assert t.chunks[i] == s.chunks[i] && t.chunks[j] == s.chunks[j];
    }
    if NextIsTaken(s) {
      var k :| 0 <= k < |s.chunks| && s.chunks[k].seqNo == s.nextSeq && s.chunks[k].entryIds != [];
      assert t.chunks[k] == s.chunks[k];
      assert more != [] ==> t.chunks[|s.chunks|] == more[0];
    }
    assert more != [] ==> t.chunks[|s.chunks|] == more[0];
  }

  /** What a flush did: nothing, some of its chunk records only, or all of it. */
  lemma FlushShape(o: Owner, s: Session, views: seq<View>, policy: Policy, room: nat)
    ensures var f := Flush(o, s, views, policy, room);
            var records := Records(Drafts(o.cfg, s.nextSeq, NewGroups(o, s, views, policy)));
            && (|| f.session == s
                || (exists n :: 0 < n <= |records| && f.session.chunks == s.chunks + records[..n] && f.session.nextSeq == s.nextSeq)
                || f.session == Advanced(o, s, views, policy))
            && (f.outcome == Captured ==> f.session == Advanced(o, s, views, policy))
            && (NewManifest(f.jobs).Some? ==>
                  && NewManifest(f.jobs).value == ManifestFor(o, f.session) && records != []
                  && f.session == Advanced(o, s, views, policy))
            && (var r := Refused(o, s, views, policy, room);
                r.Some? && r.value.job.ManifestJob? ==>
                  && r.value.from == f.session && r.value.job.manifest == ManifestFor(o, f.session) && records != []
                  && f.session == Advanced(o, s, views, policy))
  {
    hide NewGroups, Fresh, SplitViews;
    var f := Flush(o, s, views, policy, room);
    var drafts := Drafts(o.cfg, s.nextSeq, NewGroups(o, s, views, policy));
    if f.outcome == Threw && room < |drafts| {
      assert Records(drafts[..room]) == Records(drafts)[..room];
      if room == 0 {
        assert f.session.chunks == s.chunks && f.session.groups == s.groups;
      }
    }
  }

  lemma FlushKeepsOk(o: Owner, s: Session, views: seq<View>, policy: Policy, room: nat)
    requires SessionOk(o, s) && NamedViews(views)
    ensures var f := Flush(o, s, views, policy, room);
            && SessionOk(o, f.session)
            && (NewManifest(f.jobs).Some? ==> Declares(o, f.session))
            && StrayOk(o, Refused(o, s, views, policy, room))
  {
    hide Flush, Good, Repeats, NextIsTaken, Drafts, Records, NewGroups, Refused;
    var t := Flush(o, s, views, policy, room).session;
    var records := Records(Drafts(o.cfg, s.nextSeq, NewGroups(o, s, views, policy)));
    FlushShape(o, s, views, policy, room);
    NewRecords(o, s, views, policy);
    if t == s {
    } else if t == Advanced(o, s, views, policy) {
      MoreRecords(s, t, records);
      if Good(o, s) {
        AdvancedIsGood(o, s, views, policy);
      }
    } else {
      var n :| 0 < n <= |records| && t.chunks == s.chunks + records[..n] && t.nextSeq == s.nextSeq;
      MoreRecords(s, t, records[..n]);
      GoodIsWhole(o, s);
    }
  }

  lemma GoodIsWhole(o: Owner, s: Session)
    ensures Good(o, s) ==> |s.chunks| == |s.groups| == s.nextSeq
  {
  }

  lemma StepKeepsInv(o: Owner, st: Store, e: Event)
    requires Inv(o, st) && (e.Capture? ==> NamedViews(e.views))
    ensures Inv(o, Apply(o, st, e))
  {
    hide Flush, SessionOk, Declares, Deliver, Advanced, ManifestFor, Refused;
    match e {
      case Restart(_) =>
      case Capture(views, policy, room, _, _) =>
        FlushKeepsOk(o, st.mem, views, policy, room);
        FlushShape(o, st.mem, views, policy, room);
    }
  }

  lemma {:induction false} RunKeepsInv(o: Owner, st: Store, events: seq<Event>)
    requires Inv(o, st) && NamedRun(events)
    ensures Inv(o, Run(o, st, events))
    decreases |events|
  {
    hide Inv, Apply;
    if events != [] {
      assert events[0] in events;
      StepKeepsInv(o, st, events[0]);
      RunKeepsInv(o, Apply(o, st, events[0]), events[1..]);
    }
  }

  lemma InitInv(o: Owner)
    ensures Inv(o, Nothing)
  {
    assert Good(o, Empty);
  }

  // ---- reading a backup back -----------------------------------------------------------------

  const MAX_CHUNK_SEQ: int := 999999

  function MaxSeq(records: seq<ManifestChunk>): int {
    if records == [] then -1 else Max(MaxSeq(records[..|records| - 1]), records[|records| - 1].seqNo)
  }

  /** Every declared seq, and one probe behind the last. */
  function Asked(m: Manifest): set<int> {
    var last := MaxSeq(m.chunks);
    Seqs(m.chunks) + (if 0 <= last < MAX_CHUNK_SEQ then {last + 1} else {})
  }

  function Picked(sent: map<int, ChunkText>, seqs: set<int>): map<int, ChunkText> {
    map n | n in sent && n in seqs :: sent[n]
  }

  function Found(sent: map<int, ChunkText>, m: Manifest): map<int, ChunkText> {
    Picked(sent, Asked(m))
  }

  lemma PickedPush(sent: map<int, ChunkText>, seqs: set<int>, n: int)
    ensures Picked(sent, seqs + {n}) == if n in sent then Picked(sent, seqs)[n := sent[n]] else Picked(sent, seqs)
  {
  }

  /** Reads the declared chunks and the probe; what is missing stays out of the map. */
  method FetchRemoteBackup(sent: map<int, ChunkText>, m: Manifest) returns (chunks: map<int, ChunkText>)
    ensures chunks == Found(sent, m)
  {
    chunks := map[];
    var maxSeq := -1;
    for i := 0 to |m.chunks|
      invariant maxSeq == MaxSeq(m.chunks[..i])
      invariant chunks == Picked(sent, Seqs(m.chunks[..i]))
    {
      hide Picked;
      assert m.chunks[..i + 1][..i] == m.chunks[..i];
      var n := m.chunks[i].seqNo;
      assert Seqs(m.chunks[..i + 1]) == Seqs(m.chunks[..i]) + {n};
      PickedPush(sent, Seqs(m.chunks[..i]), n);
      maxSeq := Max(maxSeq, n);
      if n in sent {
        chunks := chunks[n := sent[n]];
      }
    }
    assert m.chunks[..|m.chunks|] == m.chunks;
    if 0 <= maxSeq && maxSeq + 1 <= MAX_CHUNK_SEQ {
      PickedPush(sent, Seqs(m.chunks), maxSeq + 1);
      if maxSeq + 1 in sent {
        chunks := chunks[maxSeq + 1 := sent[maxSeq + 1]];
      }
    }
  }

  function InputOf(o: Owner, sent: map<int, ChunkText>, m: Manifest): VerifyInput {
    VerifyInput(m, Found(sent, m), o.cfg.session, o.projectId, Some(o.scope), o.cfg.codec)
  }

  /** What verification reports on the backup as it stands on the backend. */
  function Verdict(o: Owner, st: Store): seq<Code>
    requires st.manifest.Some?
  {
    Check(InputOf(o, st.sent, st.manifest.value))
  }

  // ---- the verdict --------------------------------------------------------------------------

  /** Every declared path holds the content its record was made from. */
  ghost predicate FirstIsDeclared(o: Owner, sent: map<int, ChunkText>, groups: seq<seq<Entry>>) {
    forall i :: 0 <= i < |groups| ==> i in sent && sent[i] == SerializeChunk(o.cfg.session, i, groups[i])
  }

  /** A chunk was queued behind the last declared one. */
  ghost predicate Orphan(sent: map<int, ChunkText>, groups: seq<seq<Entry>>) {
    |groups| in sent && |groups| <= MAX_CHUNK_SEQ
  }

  lemma {:induction false} GoodSeqs(o: Owner, s: Session, n: nat)
    requires Good(o, s) && n <= |s.chunks|
    ensures MaxSeq(s.chunks[..n]) == n - 1
    ensures forall i :: 0 <= i < |s.chunks| ==> s.chunks[i] == RecordOf(MakeDraft(o.cfg, i, s.groups[i]))
  {
    assert forall i :: 0 <= i < |s.chunks| ==> s.chunks[i].seqNo == i;
    if n > 0 {
      GoodSeqs(o, s, n - 1);
      assert s.chunks[..n][..n - 1] == s.chunks[..n - 1];
    }
    hide Good, MakeDraft;
  }

  lemma AskedSeqs(o: Owner, s: Session, n: int)
    requires Good(o, s) && s.chunks != []
    ensures n in Seqs(s.chunks) <==> 0 <= n < |s.groups|
    ensures n in Asked(ManifestFor(o, s)) <==> 0 <= n < |s.groups| || (n == |s.groups| && n <= MAX_CHUNK_SEQ)
  {
    GoodIsWhole(o, s);
    GoodSeqs(o, s, |s.chunks|);
    assert s.chunks[..|s.chunks|] == s.chunks;
    hide Good, MaxSeq, MakeDraft;
    if 0 <= n < |s.groups| {
      assert s.chunks[n] in s.chunks && s.chunks[n].seqNo == n;
    }
  }

  lemma {:induction false} InFlatten(groups: seq<seq<Entry>>, i: nat, e: Entry)
    requires i < |groups| && e in groups[i]
    ensures e in Flatten(groups)
    decreases |groups|
  {
    if i < |groups| - 1 {
      InFlatten(groups[..|groups| - 1], i, e);
    }
  }

  lemma NamedPart(groups: seq<seq<Entry>>, i: nat)
    requires Named(Flatten(groups)) && i < |groups|
    ensures Named(groups[i])
  {
    hide Flatten;
    forall e | e in groups[i] ensures e.id != "" {
      InFlatten(groups, i, e);
    }
  }

  lemma ChunkParses(o: Owner, s: Session, sent: map<int, ChunkText>, i: nat)
    requires Good(o, s) && s.chunks != [] && FirstIsDeclared(o, sent, s.groups) && i < |s.groups|
    ensures var input := InputOf(o, sent, ManifestFor(o, s));
            && i < |s.chunks| && s.chunks[i].seqNo == i
            && RecordValid(input, s.chunks[i])
            && Delivered(input, s.chunks[i]) == s.groups[i]
  {
    hide Asked, Subseq, Distinct, Flatten;
    AskedSeqs(o, s, i);
    NamedPart(s.groups, i);
    ParseSerialized(o.cfg.session, o.cfg.session, i, s.groups[i]);
    assert s.chunks[i] == RecordOf(MakeDraft(o.cfg, i, s.groups[i]));
    hide ParseChunk, SerializeChunk;
  }

  lemma {:induction false} ChunksCoverGroups(o: Owner, s: Session, sent: map<int, ChunkText>, n: nat)
    requires Good(o, s) && s.chunks != [] && FirstIsDeclared(o, sent, s.groups) && n <= |s.groups|
    ensures |s.chunks| == |s.groups|
    ensures Covered(InputOf(o, sent, ManifestFor(o, s)), s.chunks[..n]) == Flatten(s.groups[..n])
  {
    GoodIsWhole(o, s);
    hide Good, FirstIsDeclared, Delivered;
    if n > 0 {
      ChunksCoverGroups(o, s, sent, n - 1);
      ChunkParses(o, s, sent, n - 1);
      assert s.chunks[..n][..n - 1] == s.chunks[..n - 1];
      assert s.groups[..n][..n - 1] == s.groups[..n - 1];
    }
  }

  lemma DeclaredChunksAreValid(o: Owner, s: Session, sent: map<int, ChunkText>)
    requires Good(o, s) && s.chunks != [] && FirstIsDeclared(o, sent, s.groups)
    ensures var input := InputOf(o, sent, ManifestFor(o, s));
            && Covered(input, s.chunks) == Flatten(s.groups)
            && (forall r :: r in s.chunks ==> RecordValid(input, r))
            && (input.chunks.Keys == Seqs(s.chunks) <==> !Orphan(sent, s.groups))
  {
    hide RecordValid, Covered, Found, Orphan;
    var input := InputOf(o, sent, ManifestFor(o, s));
    var n := |s.groups|;
    ChunksCoverGroups(o, s, sent, n);
    assert s.chunks[..n] == s.chunks && s.groups[..n] == s.groups;
    forall r | r in s.chunks ensures RecordValid(input, r) {
      var i :| 0 <= i < n && s.chunks[i] == r;
      ChunkParses(o, s, sent, i);
    }
    FoundSeqs(o, s, sent);
    hide Good;
  }

  lemma FoundSeqs(o: Owner, s: Session, sent: map<int, ChunkText>)
    requires Good(o, s) && s.chunks != [] && FirstIsDeclared(o, sent, s.groups)
    ensures Found(sent, ManifestFor(o, s)).Keys == Seqs(s.chunks) <==> !Orphan(sent, s.groups)
  {
    hide Good, Asked, Seqs, SerializeChunk;
    var n := |s.groups|;
    forall k ensures k in Found(sent, ManifestFor(o, s)) <==> k in Seqs(s.chunks) || (k == n && Orphan(sent, s.groups)) {
      AskedSeqs(o, s, k);
    }
    AskedSeqs(o, s, n);
  }

  /** Some covered entry went into no chunk: it was omitted whole. */
  ghost predicate OmittedWhole(s: Session, id: string) {
    id in s.covered && id !in Ids(Flatten(s.groups))
  }

  lemma RangeHoldsIff(o: Owner, s: Session)
    requires Good(o, s)
    ensures var ids := Ids(Flatten(s.groups));
            && (RangeValid(ManifestFor(o, s), ids) <==> forall id :: !OmittedWhole(s, id))
            && (|s.covered| == |ids| <==> forall id :: !OmittedWhole(s, id))
            && Distinct(ids)
  {
    hide Distinct, Subseq;
    var ids := Ids(Flatten(s.groups));
    SubseqWhole(ids, s.covered);
    SubseqDistinct(ids, s.covered);
    if forall id :: !OmittedWhole(s, id) {
      forall id | id in s.covered ensures id in ids {
        assert !OmittedWhole(s, id);
      }
    }
  }

  lemma VerdictOnDeclared(o: Owner, s: Session, sent: map<int, ChunkText>)
    requires Good(o, s) && s.chunks != [] && FirstIsDeclared(o, sent, s.groups)
    ensures var input := InputOf(o, sent, ManifestFor(o, s));
            && (Check(input) == [] <==>
                  (forall id :: !OmittedWhole(s, id)) && AllLinked(Flatten(s.groups)) && !Orphan(sent, s.groups))
            && (EntryCountMismatch in Check(input) <==> exists id :: OmittedWhole(s, id))
  {
    var input := InputOf(o, sent, ManifestFor(o, s));
    DeclaredChunksAreValid(o, s, sent);
    RangeHoldsIff(o, s);
    NoIssuesIffValid(input);
    ValidRecordsAreOrdered(input, s.chunks);
    EntryCountReported(input);
    hide Check, Good, FirstIsDeclared, Covered, RecordValid, AllLinked, Distinct, Flatten, OmittedWhole, Orphan;
  }

  /** A checksum without collisions tells the declared content from any other. */
  lemma AcceptedIsDeclared(o: Owner, s: Session, sent: map<int, ChunkText>)
    requires Good(o, s) && s.chunks != [] && CollisionFree(o.cfg.codec)
    requires Check(InputOf(o, sent, ManifestFor(o, s))) == []
    ensures FirstIsDeclared(o, sent, s.groups)
  {
    hide Check, SerializeChunk, ParseChunk, Covered, Distinct, Subseq, AllLinked, Flatten;
    var input := InputOf(o, sent, ManifestFor(o, s));
    NoIssuesIffValid(input);
    GoodSeqs(o, s, 0);
    forall i | 0 <= i < |s.groups| ensures i in sent && sent[i] == SerializeChunk(o.cfg.session, i, s.groups[i]) {
      assert s.chunks[i] in s.chunks;
      assert RecordValid(input, s.chunks[i]);
    }
  }

  lemma {:induction false} LinkCodes(prior: seq<Entry>, es: seq<Entry>)
    ensures EntryCountMismatch !in LinkIssues(prior, es)
  {
    if es != [] { LinkCodes(prior, es[..|es| - 1]); }
  }

  lemma {:induction false} ScanLinkCodes(input: VerifyInput, records: seq<ManifestChunk>)
    ensures EntryCountMismatch !in ScanLinks(input, records)
  {
    if records != [] {
      var init, r := records[..|records| - 1], records[|records| - 1];
      ScanLinkCodes(input, init);
      LinkCodes(Covered(input, init), Delivered(input, r));
    }
  }

  lemma {:induction false} DuplicateCodes(prior: seq<string>, ids: seq<string>)
    ensures EntryCountMismatch !in DuplicateIssues(prior, ids)
  {
    if ids != [] { DuplicateCodes(prior, ids[..|ids| - 1]); }
  }

  lemma {:induction false} ScanCodes(input: VerifyInput, records: seq<ManifestChunk>)
    ensures EntryCountMismatch !in ScanIssues(input, records)
  {
    if records != [] {
      var init, r := records[..|records| - 1], records[|records| - 1];
      ScanCodes(input, init);
      DuplicateCodes(Ids(Covered(input, init)), Ids(Delivered(input, r)));
      RecordCodes(input, r);
      hide RecordIssues, DuplicateIssues;
    }
  }

  lemma RecordCodes(input: VerifyInput, r: ManifestChunk)
    ensures EntryCountMismatch !in RecordIssues(input, r)
  {
  }

  lemma CheckContains(input: VerifyInput, code: Code)
    ensures var records := input.manifest.chunks;
            code in Check(input) <==>
              || code in IdentityIssues(input) || code in Times(|Extra(input)|, UnexpectedChunk)
              || code in ScanIssues(input, records)
              || code in RangeIssues(input.manifest, Ids(Covered(input, records)), Ordered(input, records))
              || code in ScanLinks(input, records)
  {
    hide IdentityIssues, Times, Extra, ScanIssues, RangeIssues, Covered, Ordered, ScanLinks, Ids;
  }

  lemma RangeCodes(m: Manifest, ids: seq<string>, ordered: bool)
    ensures EntryCountMismatch in RangeIssues(m, ids, ordered) <==> m.entryCount != |ids| && ordered
  {
  }

  lemma OtherCodes(input: VerifyInput)
    ensures EntryCountMismatch !in IdentityIssues(input)
    ensures EntryCountMismatch !in Times(|Extra(input)|, UnexpectedChunk)
  {
  }

  /** The count is compared only when no chunk was misfiled. */
  lemma EntryCountReported(input: VerifyInput)
    ensures var m := input.manifest;
            EntryCountMismatch in Check(input) <==>
              m.entryCount != |Covered(input, m.chunks)| && Ordered(input, m.chunks)
  {
    var m := input.manifest;
    ScanCodes(input, m.chunks);
    ScanLinkCodes(input, m.chunks);
    CheckContains(input, EntryCountMismatch);
    RangeCodes(m, Ids(Covered(input, m.chunks)), Ordered(input, m.chunks));
    OtherCodes(input);
    hide Check, IdentityIssues, Times, Extra, ScanIssues, ScanLinks, RangeIssues, Covered, Ordered;
  }

  // ---- the round trip -----------------------------------------------------------------------

  /**
   * The round trip, over any run of flushes, throws, failed rewrites and restarts: the backup as it
   * stands on the backend verifies with no issue exactly when its manifest was not built behind a
   * throw in the same process, nothing covered by it was omitted whole, parents were chunked before
   * their children, every declared path kept the declared content, and no chunk was queued behind
   * the last declared one.
   */
  lemma CaptureThenVerify(o: Owner, events: seq<Event>)
    requires NamedRun(events) && CollisionFree(o.cfg.codec)
    requires Run(o, Nothing, events).manifest.Some?
    ensures var st := Run(o, Nothing, events);
            Verdict(o, st) == [] <==>
              && !Torn(st.built)
              && (forall id :: !OmittedWhole(st.built, id))
              && AllLinked(Flatten(st.built.groups))
              && FirstIsDeclared(o, st.sent, st.built.groups)
              && !Orphan(st.sent, st.built.groups)
  {
    hide Check, Run, OmittedWhole, AllLinked, FirstIsDeclared, Orphan, Flatten, CollisionFree;
    var st := Run(o, Nothing, events);
    InitInv(o);
    RunKeepsInv(o, Nothing, events);
    if Torn(st.built) {
      GoodIsWhole(o, st.built);
      var i, j :| 0 <= i < j < |st.built.chunks|
                  && st.built.chunks[i].seqNo == st.built.chunks[j].seqNo && st.built.chunks[i].entryIds != [];
      RepeatedSeqNeverVerifies(InputOf(o, st.sent, st.manifest.value), i, j);
    } else {
      SpoiledIsTorn(o, st);
      if FirstIsDeclared(o, st.sent, st.built.groups) {
        VerdictOnDeclared(o, st.built, st.sent);
      } else if Verdict(o, st) == [] {
        AcceptedIsDeclared(o, st.built, st.sent);
      }
    }
  }

  lemma SpoiledIsTorn(o: Owner, st: Store)
    requires ManifestOk(o, st) && st.manifest.Some? && !Torn(st.built)
    ensures Good(o, st.built)
  {
  }

  /** With the declared contents in place, the count differs exactly when an entry was omitted whole. */
  lemma OmissionsMissTheCount(o: Owner, events: seq<Event>)
    requires NamedRun(events)
    requires var st := Run(o, Nothing, events);
             st.manifest.Some? && !Torn(st.built) && FirstIsDeclared(o, st.sent, st.built.groups)
    ensures var st := Run(o, Nothing, events);
            EntryCountMismatch in Verdict(o, st) <==> exists id :: OmittedWhole(st.built, id)
  {
    var st := Run(o, Nothing, events);
    InitInv(o);
    RunKeepsInv(o, Nothing, events);
    SpoiledIsTorn(o, st);
    VerdictOnDeclared(o, st.built, st.sent);
  }

  /** No restart loses state or brings back a job that memory had rolled back; throws may come anywhere. */
  ghost predicate LossFree(o: Owner, st: Store, events: seq<Event>)
    decreases |events|
  {
    events != [] ==>
      && (events[0].Restart? ==> st.disk == st.mem && (events[0].found ==> st.stray.None?))
      && LossFree(o, Apply(o, st, events[0]), events[1..])
  }

  /** The chunk paths hold what the state declares and nothing else, and the last manifest an earlier part of it. */
  ghost predicate Tracked(o: Owner, st: Store) {
    && Good(o, st.mem)
    && FirstIsDeclared(o, st.sent, st.mem.groups)
    && (forall n :: n in st.sent ==> 0 <= n < |st.mem.groups|)
    && (st.manifest.Some? ==> Good(o, st.built) && st.built.groups <= st.mem.groups)
  }

  /** No flush throws and every rewrite of the state file returns; restarts may come anywhere. */
  ghost predicate Calm(o: Owner, st: Store, events: seq<Event>)
    decreases |events|
  {
    events != [] ==>
      && (events[0].Capture? ==>
            && events[0].persist == Written
            && Flush(o, st.mem, events[0].views, events[0].policy, events[0].room).outcome != Threw)
      && Calm(o, Apply(o, st, events[0]), events[1..])
  }

  ghost predicate CalmInv(o: Owner, st: Store) {
    st.disk == st.mem && st.stray.None? && Tracked(o, st) && (st.manifest.Some? ==> st.built.groups == st.mem.groups)
  }

  lemma {:induction false} DeliverFresh(o: Owner, sent: map<int, ChunkText>, groups: seq<seq<Entry>>, base: nat, n: nat, i: int)
    requires n <= |groups| && forall k :: k in sent ==> k < base
    ensures var after := Deliver(sent, ChunkJobs(Drafts(o.cfg, base, groups))[..n]);
            && (i in after <==> i in sent || base <= i < base + n)
            && (i in sent ==> after[i] == sent[i])
            && (base <= i < base + n ==> after[i] == SerializeChunk(o.cfg.session, i, groups[i - base]))
    decreases n
  {
    hide SerializeChunk, Deliver, ChunkJobs, Drafts;
    var jobs := ChunkJobs(Drafts(o.cfg, base, groups));
    JobCount(o, groups, base);
    if n > 0 {
      DeliverFresh(o, sent, groups, base, n - 1, i);
      DeliverFresh(o, sent, groups, base, n - 1, base + (n - 1));
      JobAt(o, groups, base, n - 1);
      DeliverNext(sent, jobs[..n - 1], jobs[n - 1]);
      assert jobs[..n - 1] + [jobs[n - 1]] == jobs[..n];
    } else {
      DeliverNothing(sent);
      assert jobs[..0] == [];
    }
  }

  lemma JobAt(o: Owner, groups: seq<seq<Entry>>, base: nat, k: nat)
    requires k < |groups|
    ensures var jobs := ChunkJobs(Drafts(o.cfg, base, groups));
            jobs[k].ChunkJob? && jobs[k].seqNo == base + k && jobs[k].content == SerializeChunk(o.cfg.session, base + k, groups[k])
  {
    hide SerializeChunk;
  }

  lemma JobCount(o: Owner, groups: seq<seq<Entry>>, base: nat)
    ensures |ChunkJobs(Drafts(o.cfg, base, groups))| == |groups|
  {
  }

  lemma DeliverNext(sent: map<int, ChunkText>, jobs: seq<Job>, job: Job)
    requires job.ChunkJob?
    ensures var before := Deliver(sent, jobs);
            Deliver(sent, jobs + [job]) == if job.seqNo in before then before else before[job.seqNo := job.content]
  {
    assert (jobs + [job])[..|jobs|] == jobs;
  }

  lemma DeliverNothing(sent: map<int, ChunkText>)
    ensures Deliver(sent, []) == sent
  {
  }

  /** A flush from a whole state tears it, does nothing, or queues all of its chunks. */
  lemma WholeFlush(o: Owner, s: Session, views: seq<View>, policy: Policy, room: nat, sent: map<int, ChunkText>)
    requires !Torn(s)
    ensures var f := Flush(o, s, views, policy, room);
            var jobs := ChunkJobs(Drafts(o.cfg, s.nextSeq, NewGroups(o, s, views, policy)));
            || Torn(f.session)
            || (f.session == s && f.jobs == [])
            || (f.session == Advanced(o, s, views, policy) && Deliver(sent, f.jobs) == Deliver(sent, jobs))
    ensures var f := Flush(o, s, views, policy, room);
            && (f.outcome == Skipped ==> f.session == s && f.jobs == [])
            && (f.outcome == Captured ==> f.session == Advanced(o, s, views, policy)
                                          && (NewManifest(f.jobs).None? ==> NewGroups(o, s, views, policy) == []))
  {
    hide NewGroups, Fresh, SplitViews, Advanced;
    var f := Flush(o, s, views, policy, room);
    var jobs := ChunkJobs(Drafts(o.cfg, s.nextSeq, NewGroups(o, s, views, policy)));
    if f.jobs != [] && NewManifest(f.jobs).Some? {
      assert f.jobs[..|f.jobs| - 1] == jobs;
    }
  }

  lemma DeliversAll(o: Owner, sent: map<int, ChunkText>, earlier: seq<seq<Entry>>, groups: seq<seq<Entry>>)
    requires FirstIsDeclared(o, sent, earlier) && forall n :: n in sent ==> 0 <= n < |earlier|
    ensures var after := Deliver(sent, ChunkJobs(Drafts(o.cfg, |earlier|, groups)));
            FirstIsDeclared(o, after, earlier + groups) && forall n :: n in after ==> 0 <= n < |earlier + groups|
  {
    hide Deliver, SerializeChunk;
    var jobs := ChunkJobs(Drafts(o.cfg, |earlier|, groups));
    assert jobs[..|groups|] == jobs;
    var after := Deliver(sent, jobs);
    forall n | 0 <= n < |earlier + groups|
      ensures n in after && after[n] == SerializeChunk(o.cfg.session, n, (earlier + groups)[n])
    {
      DeliverFresh(o, sent, groups, |earlier|, |groups|, n);
    }
    forall n | n in after ensures 0 <= n < |earlier + groups| {
      DeliverFresh(o, sent, groups, |earlier|, |groups|, n);
    }
  }

  lemma TrackedStep(o: Owner, st: Store, e: Event)
    requires Inv(o, st) && LossFree(o, st, [e]) && (e.Capture? ==> NamedViews(e.views))
    requires Torn(st.mem) || Tracked(o, st)
    ensures Torn(Apply(o, st, e).mem) || Tracked(o, Apply(o, st, e))
  {
    hide Inv, Good, FirstIsDeclared, Flush, Deliver, NewManifest, Refused;
    if e.Capture? {
      if Torn(st.mem) {
        TornStep(o, st, e);
      } else {
        TrackedFlush(o, st, e);
      }
    }
  }

  lemma TrackedFlush(o: Owner, st: Store, e: Event)
    requires Tracked(o, st) && e.Capture? && NamedViews(e.views)
    ensures Torn(Apply(o, st, e).mem) || Tracked(o, Apply(o, st, e))
  {
    GoodIsWhole(o, st.mem);
    hide Good, FirstIsDeclared, Flush, Drafts, NewGroups, Deliver, ChunkJobs, Refused;
    WholeFlush(o, st.mem, e.views, e.policy, e.room, st.sent);
    AdvancedIsGood(o, st.mem, e.views, e.policy);
    DeliversAll(o, st.sent, st.mem.groups, NewGroups(o, st.mem, e.views, e.policy));
    DeliverNothing(st.sent);
  }

  lemma {:induction false} TrackedRun(o: Owner, st: Store, events: seq<Event>)
    requires Inv(o, st) && LossFree(o, st, events) && NamedRun(events) && (Torn(st.mem) || Tracked(o, st))
    ensures var after := Run(o, st, events); Torn(after.mem) || Tracked(o, after)
    decreases |events|
  {
    hide Inv, Tracked, Apply;
    if events != [] {
      assert events[0] in events;
      assert LossFree(o, st, [events[0]]);
      StepKeepsInv(o, st, events[0]);
      TrackedStep(o, st, events[0]);
      TrackedRun(o, Apply(o, st, events[0]), events[1..]);
    }
  }

  lemma EarlierPart(o: Owner, st: Store)
    requires Tracked(o, st) && st.manifest.Some?
    ensures FirstIsDeclared(o, st.sent, st.built.groups)
    ensures Orphan(st.sent, st.built.groups) <==> st.built.groups != st.mem.groups && |st.built.groups| <= MAX_CHUNK_SEQ
  {
    hide Good, SerializeChunk;
    assert st.built.groups == st.mem.groups[..|st.built.groups|];
    assert |st.built.groups| == |st.mem.groups| ==> st.built.groups == st.mem.groups;
  }

  /**
   * What spoils a declared path is a restart that lost state or found a rolled-back job: in a run
   * without one, whatever was thrown and unless the process is torn at the end, every declared path
   * holds its content, and a chunk sits behind the last declared one exactly when the chunks queued
   * since the last manifest never got one.
   */
  lemma LossFreeRunVerifiesIff(o: Owner, events: seq<Event>)
    requires NamedRun(events) && LossFree(o, Nothing, events)
    requires var st := Run(o, Nothing, events); st.manifest.Some? && !Torn(st.mem)
    ensures var st := Run(o, Nothing, events);
            && FirstIsDeclared(o, st.sent, st.built.groups)
            && (Orphan(st.sent, st.built.groups) <==> st.built.groups != st.mem.groups && |st.built.groups| <= MAX_CHUNK_SEQ)
            && (Verdict(o, st) == [] <==>
                  && (forall id :: !OmittedWhole(st.built, id)) && AllLinked(Flatten(st.built.groups))
                  && (st.built.groups == st.mem.groups || |st.built.groups| > MAX_CHUNK_SEQ))
  {
    hide Check, LossFree, Run, OmittedWhole, AllLinked, FirstIsDeclared, Orphan, Flatten, Good;
    var st := Run(o, Nothing, events);
    InitInv(o);
    NothingIsTracked(o);
    RunKeepsInv(o, Nothing, events);
    TrackedRun(o, Nothing, events);
    EarlierPart(o, st);
    VerdictOnDeclared(o, st.built, st.sent);
  }

  lemma NothingIsTracked(o: Owner)
    ensures Tracked(o, Nothing) && CalmInv(o, Nothing)
  {
    assert Good(o, Empty);
  }

  lemma CalmStep(o: Owner, st: Store, e: Event)
    requires CalmInv(o, st) && Calm(o, st, [e]) && (e.Capture? ==> NamedViews(e.views))
    ensures CalmInv(o, Apply(o, st, e))
  {
    if e.Capture? {
      GoodIsWhole(o, st.mem);
      hide Good, Flush, FirstIsDeclared, Drafts, NewGroups, Deliver, NewManifest, ChunkJobs;
      TrackedFlush(o, st, e);
      WholeFlush(o, st.mem, e.views, e.policy, e.room, st.sent);
      AdvancedIsGood(o, st.mem, e.views, e.policy);
      GoodIsWhole(o, Advanced(o, st.mem, e.views, e.policy));
    }
  }

  lemma {:induction false} CalmRun(o: Owner, st: Store, events: seq<Event>)
    requires CalmInv(o, st) && Calm(o, st, events) && NamedRun(events)
    ensures CalmInv(o, Run(o, st, events))
    decreases |events|
  {
    hide CalmInv, Apply;
    if events != [] {
      assert events[0] in events;
      assert Calm(o, st, [events[0]]);
      CalmStep(o, st, events[0]);
      CalmRun(o, Apply(o, st, events[0]), events[1..]);
    }
  }

  /**
   * When no enqueue and no rewrite fails, restarts or not: the backup verifies exactly when no entry
   * covered up to its manifest was omitted whole and parents precede children, and the count is
   * reported wrong exactly when one was. Omissions noted after that manifest do not count.
   */
  lemma CalmRunVerifiesIff(o: Owner, events: seq<Event>)
    requires NamedRun(events) && Calm(o, Nothing, events)
    requires Run(o, Nothing, events).manifest.Some?
    ensures var st := Run(o, Nothing, events);
            && (Verdict(o, st) == [] <==>
                  (forall id :: !OmittedWhole(st.built, id)) && AllLinked(Flatten(st.mem.groups)))
            && (EntryCountMismatch in Verdict(o, st) <==> exists id :: OmittedWhole(st.built, id))
  {
    hide Check, Calm, Run, OmittedWhole, AllLinked;
    var st := Run(o, Nothing, events);
    InitInv(o);
    RunKeepsInv(o, Nothing, events);
    NothingIsTracked(o);
    CalmRun(o, Nothing, events);
    hide Flatten, FirstIsDeclared;
    VerdictOnDeclared(o, st.built, st.sent);
  }

  // ---- the sender's second look --------------------------------------------------------------

  function IdText(r: RawEntry): string {
    if r.Fields? && r.id.Some? then r.id.value else ""
  }

  /** What delivery demands of a chunk payload, including that it prints back to the same bytes. */
  predicate DeliverableChunk(session: string, codec: Codec, j: Job)
    requires j.ChunkJob?
  {
    && session != ""
    && (forall id :: id in j.entryIds ==> id != "")
    && j.content.Json?
    && j.content.kind == Some("kiwifs-backup-chunk")
    && j.content.sessionId == Some(session)
    && j.content.seqNo == Some(j.seqNo)
    && j.content.entries.Some?
    && var raws := j.content.entries.value;
       && |raws| == |j.entryIds|
       && (forall i :: 0 <= i < |raws| ==> IdText(raws[i]) == j.entryIds[i])
       && codec.checksum(j.content) == j.checksum
       && j.content == Json(Some("kiwifs-backup-chunk"), Some(BACKUP_SCHEMA_VERSION), Some(session), Some(j.seqNo), Some(raws), "")
  }

  lemma QueuedJob(o: Owner, s: Session, views: seq<View>, policy: Policy, room: nat, i: nat)
    requires var jobs := Flush(o, s, views, policy, room).jobs; i < |jobs| && jobs[i].ChunkJob?
    ensures var groups := NewGroups(o, s, views, policy);
            i < |groups| && Flush(o, s, views, policy, room).jobs[i] == JobOf(MakeDraft(o.cfg, s.nextSeq + i, groups[i]))
  {
    hide NewGroups, Fresh, MakeDraft, Advanced, ManifestFor;
  }

  lemma NewGroupsNamed(o: Owner, s: Session, views: seq<View>, policy: Policy)
    requires NamedViews(views)
    ensures Named(Flatten(NewGroups(o, s, views, policy)))
  {
    hide Fresh, SplitViews, Groups, Flatten;
    var unseen := Fresh(views, s.covered);
    FreshMembers(views, s.covered);
    SplitOrder(unseen, policy);
    GroupsConcatenate(o.cfg, s.nextSeq, SplitViews(unseen, policy).kept);
  }

  lemma DraftIsDeliverable(cfg: ChunkConfig, n: nat, g: seq<Entry>)
    requires cfg.session != "" && Named(g)
    ensures DeliverableChunk(cfg.session, cfg.codec, JobOf(MakeDraft(cfg, n, g)))
  {
    forall id | id in Ids(g) ensures id != "" {
      var k :| 0 <= k < |g| && g[k].id == id;
      assert g[k] in g;
    }
  }

  /** No chunk job that capture queues is turned away by the sender. */
  lemma QueuedChunksAreDeliverable(o: Owner, s: Session, views: seq<View>, policy: Policy, room: nat, i: nat)
    requires o.cfg.session != "" && NamedViews(views)
    requires var jobs := Flush(o, s, views, policy, room).jobs; i < |jobs| && jobs[i].ChunkJob?
    ensures DeliverableChunk(o.cfg.session, o.cfg.codec, Flush(o, s, views, policy, room).jobs[i])
  {
    hide Flush, NewGroups, Flatten, Named, DeliverableChunk, MakeDraft;
    var groups := NewGroups(o, s, views, policy);
    QueuedJob(o, s, views, policy, room, i);
    NewGroupsNamed(o, s, views, policy);
    NamedPart(groups, i);
    DraftIsDeliverable(o.cfg, s.nextSeq + i, groups[i]);
  }

  // ---- throws and replays ---------------------------------------------------------------------

  /** No delivery at all satisfies a manifest that declares one seq twice for a nonempty chunk. */
  lemma RepeatedSeqNeverVerifies(input: VerifyInput, i: nat, j: nat)
    requires i < j < |input.manifest.chunks|
    requires input.manifest.chunks[i].seqNo == input.manifest.chunks[j].seqNo
    requires input.manifest.chunks[i].entryIds != []
    ensures Check(input) != []
  {
    if Check(input) == [] {
      NoIssuesIffValid(input);
      var records := input.manifest.chunks;
      var a, b := records[i], records[j];
      assert a in records && b in records;
      assert RecordValid(input, a) && RecordValid(input, b);
      var es := Delivered(input, a);
      assert Delivered(input, b) == es && Ids(es) == a.entryIds;
      CoveredTwice(input, records, i, j, es);
      hide Check, RecordValid, Delivered, Covered;
      assert false;
    }
  }

  lemma {:induction false} CoveredAt(input: VerifyInput, records: seq<ManifestChunk>, i: nat) returns (rest: seq<Entry>)
    requires i < |records|
    ensures Covered(input, records) == Covered(input, records[..i + 1]) + rest
    ensures Covered(input, records[..i + 1]) == Covered(input, records[..i]) + Delivered(input, records[i])
    decreases |records|
  {
    hide Delivered;
    var init := records[..|records| - 1];
    if i == |init| {
      rest := [];
      assert records[..i + 1] == records;
    } else {
      var r := CoveredAt(input, init, i);
      assert init[..i] == records[..i] && init[..i + 1] == records[..i + 1];
      rest := r + Delivered(input, records[|init|]);
    }
  }

  lemma CoveredGrows(input: VerifyInput, records: seq<ManifestChunk>, i: nat, j: nat)
    requires i <= j <= |records|
    ensures |Covered(input, records[..i])| <= |Covered(input, records[..j])|
    decreases j - i
  {
    if i < j {
      assert records[..j][..j - 1] == records[..j - 1];
      CoveredGrows(input, records, i, j - 1);
    }
  }

  lemma CoveredTwice(input: VerifyInput, records: seq<ManifestChunk>, i: nat, j: nat, es: seq<Entry>)
    requires i < j < |records| && es != []
    requires Delivered(input, records[i]) == es && Delivered(input, records[j]) == es
    ensures !Distinct(Ids(Covered(input, records)))
  {
    hide Delivered, Covered;
    var whole := Covered(input, records);
    var a, b := |Covered(input, records[..i])|, |Covered(input, records[..j])|;
    var afterA := CoveredAt(input, records, i);
    var afterB := CoveredAt(input, records, j);
    CoveredGrows(input, records, i + 1, j);
    assert whole[a] == es[0] && whole[b] == es[0];
    assert Ids(whole)[a] == Ids(whole)[b];
  }

  // ---- what a throw spoils -------------------------------------------------------------------

  ghost predicate RestartFree(events: seq<Event>) {
    forall e :: e in events ==> e.Capture?
  }

  lemma {:induction false} SpoiledStays(o: Owner, st: Store, events: seq<Event>)
    requires Inv(o, st) && Torn(st.mem) && NamedRun(events) && RestartFree(events)
    ensures var after := Run(o, st, events);
            && Inv(o, after) && Torn(after.mem) && after.manifests >= st.manifests
            && (after.manifests > st.manifests ==> after.manifest.Some? && Torn(after.built))
    decreases |events|
  {
    hide Inv, Apply;
    if events != [] {
      var next := Apply(o, st, events[0]);
      assert events[0] in events;
      StepKeepsInv(o, st, events[0]);
      TornStep(o, st, events[0]);
      SpoiledStays(o, next, events[1..]);
      if Run(o, next, events[1..]).manifests == next.manifests {
        ManifestStays(o, next, events[1..]);
      }
    }
  }

  lemma TornStep(o: Owner, st: Store, e: Event)
    requires Inv(o, st) && Torn(st.mem) && e.Capture?
    ensures var after := Apply(o, st, e);
            && Torn(after.mem) && after.manifests >= st.manifests
            && (after.manifests > st.manifests ==> after.manifest.Some? && Torn(after.built))
  {
    hide Flush, Drafts, Records, NewGroups, Deliver, Repeats, NextIsTaken;
    FlushShape(o, st.mem, e.views, e.policy, e.room);
    NewRecords(o, st.mem, e.views, e.policy);
    GoodIsWhole(o, st.mem);
    hide Good;
  }

  lemma {:induction false} ManifestStays(o: Owner, st: Store, events: seq<Event>)
    ensures Run(o, st, events).manifests >= st.manifests
    ensures Run(o, st, events).manifests == st.manifests ==>
              Run(o, st, events).manifest == st.manifest && Run(o, st, events).built == st.built
    decreases |events|
  {
    hide Flush;
    if events != [] { ManifestStays(o, Apply(o, st, events[0]), events[1..]); }
  }

  /**
   * Why a throw needs a restart: after any run that ends with a throw in the middle of queueing, and
   * any restart-free run from there that queues a manifest, whatever is between, no delivery of
   * chunks at all satisfies that manifest.
   */
  lemma CapturingAfterAThrowNeverVerifies(o: Owner, before: seq<Event>, after: seq<Event>, input: VerifyInput)
    requires NamedRun(before) && NamedRun(after) && RestartFree(after)
    requires Torn(Run(o, Nothing, before).mem)
    requires var torn := Run(o, Nothing, before); Run(o, torn, after).manifests > torn.manifests
    requires Some(input.manifest) == Run(o, Run(o, Nothing, before), after).manifest
    ensures Check(input) != []
  {
    var torn := Run(o, Nothing, before);
    InitInv(o);
    RunKeepsInv(o, Nothing, before);
    SpoiledStays(o, torn, after);
    var st := Run(o, torn, after);
    hide Check, Run;
    GoodIsWhole(o, st.built);
    var i, j :| 0 <= i < j < |st.built.chunks|
                && st.built.chunks[i].seqNo == st.built.chunks[j].seqNo && st.built.chunks[i].entryIds != [];
    RepeatedSeqNeverVerifies(input, i, j);
  }

  /** A crash before the state file is written: the same entries give the same chunk jobs again. */
  lemma RederivedChunksAreReplays(o: Owner, s: Session, views: seq<View>, policy: Policy, more: seq<View>, i: nat)
    requires i < |NewGroups(o, s, views, policy)| - 1
    ensures var first := Drafts(o.cfg, s.nextSeq, NewGroups(o, s, views, policy));
            var again := Drafts(o.cfg, s.nextSeq, NewGroups(o, s, views + more, policy));
            i < |again| && JobOf(again[i]) == JobOf(first[i])
  {
    hide Groups, SplitViews, Fresh;
    FreshPrefix(views, more, s.covered);
    var a, b := Fresh(views, s.covered), Fresh(views + more, s.covered);
    SplitPrefix(a, b[|a|..], policy);
    assert a + b[|a|..] == b;
    var kept, all := SplitViews(a, policy).kept, SplitViews(b, policy).kept;
    assert kept + all[|kept|..] == all;
    AppendingKeepsEarlierDrafts(o.cfg, s.nextSeq, kept, all[|kept|..]);
  }

  lemma {:induction false} FreshPrefix(views: seq<View>, more: seq<View>, covered: seq<string>)
    ensures Fresh(views, covered) <= Fresh(views + more, covered)
    decreases |more|
  {
    if more == [] {
      assert views + more == views;
    } else {
      assert (views + more)[..|views + more| - 1] == views + more[..|more| - 1];
      FreshPrefix(views, more[..|more| - 1], covered);
    }
  }

  lemma {:induction false} SplitPrefix(views: seq<View>, more: seq<View>, policy: Policy)
    ensures SplitViews(views, policy).kept <= SplitViews(views + more, policy).kept
    decreases |more|
  {
    if more == [] {
      assert views + more == views;
    } else {
      assert (views + more)[..|views + more| - 1] == views + more[..|more| - 1];
      SplitPrefix(views, more[..|more| - 1], policy);
    }
  }
}
