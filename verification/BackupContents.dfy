/**
 * What a backup carries of each entry: the redactor's text, or nothing, over one flush and over
 * whole runs.
 */
module BackupContents {
  import opened Common
  import opened BackupChunks
  import opened BackupVerify
  import opened BackupCapture
  import opened BackupRoundTrip

  // ---- what becomes of a view ----------------------------------------------------------------

  ghost predicate Internal(v: View) {
    "extension-internal" in v.omissions
  }

  /** The view has text that may be backed up. */
  ghost predicate Readable(policy: Policy, v: View) {
    !Internal(v) && v.text.Some? && !policy.excluded(v.text.value)
  }

  /** `raw` is the view's entry with the text the redactor made of it. */
  ghost predicate Redacted(policy: Policy, v: View, raw: RawEntry) {
    Readable(policy, v) && exists text :: policy.redact(v.text.value) == Some(text) && raw == Fields(Some(v.id), v.parent, text)
  }

  /** The redactor failed: fail closed. */
  ghost predicate HeldBack(policy: Policy, v: View) {
    Readable(policy, v) && policy.redact(v.text.value).None?
  }

  /** Why a view is left out whole. */
  ghost predicate LeftOutFor(policy: Policy, v: View, reason: string) {
    if Internal(v) then reason == "extension-internal"
    else if v.text.None? then (if v.omissions == [] then reason == "contentless-entry" else reason in v.omissions)
    else policy.excluded(v.text.value) && reason == "excluded-by-policy"
  }

  lemma {:induction false} KeptAreRedacted(views: seq<View>, policy: Policy, e: Entry)
    requires e in SplitViews(views, policy).kept
    ensures exists v :: v in views && Redacted(policy, v, RawOf(e))
  {
    var init, v := views[..|views| - 1], views[|views| - 1];
    if e in SplitViews(init, policy).kept {
      KeptAreRedacted(init, policy, e);
      var w :| w in init && Redacted(policy, w, RawOf(e));
      assert w in views;
    } else {
      assert Redacted(policy, v, RawOf(e));
    }
  }

  lemma {:induction false} RedactedAreKept(views: seq<View>, policy: Policy, v: View, e: Entry)
    requires v in views && Redacted(policy, v, RawOf(e))
    ensures e in SplitViews(views, policy).kept && v.id in SplitViews(views, policy).covered
  {
    var init, last := views[..|views| - 1], views[|views| - 1];
    assert views == init + [last];
    if v != last { RedactedAreKept(init, policy, v, e); }
  }

  /** With distinct ids the last view is not among what came of the others. */
  lemma LastIsNew(init: seq<View>, last: View, policy: Policy)
    requires Distinct(ViewIds(init + [last]))
    ensures Distinct(ViewIds(init))
    ensures last.id !in SplitViews(init, policy).covered && last.id !in Ids(SplitViews(init, policy).kept)
    ensures forall v :: v in init ==> v.id != last.id
  {
    hide SplitViews, Subseq, Ids;
    ViewIdsPush(init, last);
    SplitOrder(init, policy);
    SubseqMembers(SplitViews(init, policy).covered, ViewIds(init));
    SubseqMembers(Ids(SplitViews(init, policy).kept), SplitViews(init, policy).covered);
    DistinctPrefix(ViewIds(init), [last.id]);
    DistinctParts(ViewIds(init), [last.id]);
    hide Distinct;
    forall v | v in init ensures v.id != last.id {
      var k :| 0 <= k < |init| && init[k] == v;
      assert ViewIds(init)[k] in ViewIds(init);
    }
  }

  lemma SplitNext(init: seq<View>, last: View, policy: Policy)
    ensures SplitViews(init + [last], policy) == Add(SplitViews(init, policy), last.id, FateOf(last, policy))
  {
    hide Add, FateOf;
    assert (init + [last])[..|init|] == init;
  }

  lemma AddedIds(s: Split, v: View, policy: Policy)
    ensures var t := Add(s, v.id, FateOf(v, policy));
            && (forall id :: id in t.covered <==> id in s.covered || (id == v.id && !FateOf(v, policy).Held?))
            && (forall id :: id in Ids(t.kept) <==> id in Ids(s.kept) || (id == v.id && FateOf(v, policy).Kept?))
            && (forall n :: n in s.omissions ==> n in t.omissions)
  {
    var fate := FateOf(v, policy);
    if fate.Kept? { IdsPush(s.kept, fate.entry); }
    FateKeepsId(v, policy);
    hide Ids;
  }

  lemma {:induction false} HeldAreLeft(views: seq<View>, policy: Policy, v: View)
    requires v in views && HeldBack(policy, v) && Distinct(ViewIds(views))
    ensures v.id !in SplitViews(views, policy).covered && v.id !in Ids(SplitViews(views, policy).kept)
  {
    hide SplitViews, Ids, Distinct, Add;
    var init, last := views[..|views| - 1], views[|views| - 1];
    assert views == init + [last];
    LastIsNew(init, last, policy);
    SplitNext(init, last, policy);
    AddedIds(SplitViews(init, policy), last, policy);
    if v != last { HeldAreLeft(init, policy, v); }
  }

  /** A view left out whole is covered, has no entry, and the record gives each reason. */
  lemma {:induction false} LeftOutAreNoted(views: seq<View>, policy: Policy, v: View, reason: string)
    requires v in views && LeftOutFor(policy, v, reason) && Distinct(ViewIds(views))
    ensures var s := SplitViews(views, policy);
            v.id in s.covered && v.id !in Ids(s.kept) && Omission(v.id, reason) in s.omissions
  {
    hide SplitViews, Ids, Distinct, LeftOutFor, FateOf;
    var init, last := views[..|views| - 1], views[|views| - 1];
    assert views == init + [last];
    LastIsNew(init, last, policy);
    SplitNext(init, last, policy);
    AddedIds(SplitViews(init, policy), last, policy);
    if v == last {
      OmittedFor(policy, v, reason);
      NotedIs(v.id, FateOf(v, policy).reasons, reason);
    } else {
      LeftOutAreNoted(init, policy, v, reason);
    }
  }

  lemma OmittedFor(policy: Policy, v: View, reason: string)
    requires LeftOutFor(policy, v, reason)
    ensures FateOf(v, policy).Omitted? && reason in FateOf(v, policy).reasons
  {
  }

  lemma NotedIs(id: string, reasons: seq<string>, reason: string)
    requires reason in reasons
    ensures Omission(id, reason) in Noted(id, reasons)
  {
    var k :| 0 <= k < |reasons| && reasons[k] == reason;
    assert Noted(id, reasons)[k] == Omission(id, reason);
  }

  // ---- what a flush queues -------------------------------------------------------------------------

  /** The first view of its id that is not covered yet. */
  ghost predicate NewAt(views: seq<View>, covered: seq<string>, i: nat) {
    i < |views| && views[i].id !in covered && forall k :: 0 <= k < i ==> views[k].id != views[i].id
  }

  lemma {:induction false} FreshHas(views: seq<View>, covered: seq<string>, i: nat)
    requires NewAt(views, covered, i)
    ensures views[i] in Fresh(views, covered)
    decreases |views|
  {
    var init, last := views[..|views| - 1], views[|views| - 1];
    if i == |init| {
      forall k | 0 <= k < |init| ensures ViewIds(init)[k] != last.id {
        assert init[k] == views[k];
      }
    } else {
      FreshHas(init, covered, i);
      assert init[i] == views[i];
    }
  }

  lemma {:induction false} FreshIdsDistinct(views: seq<View>, covered: seq<string>)
    ensures Distinct(ViewIds(Fresh(views, covered)))
  {
    if views != [] {
      var init, last := views[..|views| - 1], views[|views| - 1];
      FreshIdsDistinct(init, covered);
      FreshMembers(init, covered);
      ViewIdsPush(Fresh(init, covered), last);
    }
  }

  ghost predicate ChunkHolds(j: Job, raw: RawEntry) {
    j.ChunkJob? && j.content.Json? && j.content.entries.Some? && raw in j.content.entries.value
  }

  /** The chunk is for this id. */
  ghost predicate ChunkNames(j: Job, id: string) {
    j.ChunkJob? && (id in j.entryIds || exists parent, text :: ChunkHolds(j, Fields(Some(id), parent, text)))
  }

  lemma DraftHolds(cfg: ChunkConfig, n: nat, g: seq<Entry>)
    ensures var j := JobOf(MakeDraft(cfg, n, g));
            && j.content.Json? && j.content.entries.Some?
            && (forall raw :: ChunkHolds(j, raw) <==> exists e :: e in g && raw == RawOf(e))
            && (forall id :: ChunkNames(j, id) <==> id in Ids(g))
  {
    var j := JobOf(MakeDraft(cfg, n, g));
    forall raw ensures ChunkHolds(j, raw) <==> exists e :: e in g && raw == RawOf(e) {
      if e :| e in g && raw == RawOf(e) {
        var k :| 0 <= k < |g| && g[k] == e;
        assert RawEntries(g)[k] == raw;
      }
    }
    forall id ensures ChunkNames(j, id) <==> id in Ids(g) {
      if id in Ids(g) {
        assert id in j.entryIds;
      }
    }
  }

  lemma {:induction false} InSomeGroup(groups: seq<seq<Entry>>, e: Entry) returns (n: nat)
    requires e in Flatten(groups)
    ensures n < |groups| && e in groups[n]
  {
    var init := groups[..|groups| - 1];
    n := |init|;
    if e in Flatten(init) {
      n := InSomeGroup(init, e);
      assert init[n] == groups[n];
    }
  }

  lemma IdInFlatten(groups: seq<seq<Entry>>, n: nat, id: string)
    requires n < |groups| && id in Ids(groups[n])
    ensures id in Ids(Flatten(groups))
  {
    var k :| 0 <= k < |groups[n]| && Ids(groups[n])[k] == id;
    assert groups[n][k] in groups[n];
    InFlatten(groups, n, groups[n][k]);
    var es := Flatten(groups);
    var m :| 0 <= m < |es| && es[m] == groups[n][k];
    assert Ids(es)[m] == id;
  }

  /** In a list without repeated ids no id is in two groups. */
  lemma {:induction false} OneGroup(groups: seq<seq<Entry>>, m: nat, n: nat, id: string)
    requires Distinct(Ids(Flatten(groups))) && m < n < |groups| && id in Ids(groups[m])
    ensures id !in Ids(groups[n])
    decreases |groups|
  {
    var init, last := groups[..|groups| - 1], groups[|groups| - 1];
    IdsConcat(Flatten(init), last);
    if n == |init| {
      assert init[m] == groups[m];
      IdInFlatten(init, m, id);
      DistinctParts(Ids(Flatten(init)), Ids(last));
    } else {
      DistinctPrefix(Ids(Flatten(init)), Ids(last));
      OneGroup(init, m, n, id);
    }
  }

  lemma DistinctParts(a: seq<string>, b: seq<string>)
    requires Distinct(a + b)
    ensures forall id :: id in a ==> id !in b
  {
    forall i, k | 0 <= i < |a| && 0 <= k < |b| ensures a[i] != b[k] {
      assert (a + b)[i] == a[i] && (a + b)[|a| + k] == b[k];
    }
  }

  lemma DistinctPrefix(a: seq<string>, b: seq<string>)
    requires Distinct(a + b)
    ensures Distinct(a)
  {
    assert forall i :: 0 <= i < |a| ==> (a + b)[i] == a[i];
  }

  lemma NewGroupsHold(o: Owner, s: Session, views: seq<View>, policy: Policy)
    ensures var kept := SplitViews(Fresh(views, s.covered), policy).kept;
            Flatten(NewGroups(o, s, views, policy)) == kept && Distinct(Ids(kept))
  {
    hide Groups, SplitViews, Fresh, Flatten, Distinct, Subseq;
    var unseen := Fresh(views, s.covered);
    GroupsConcatenate(o.cfg, s.nextSeq, SplitViews(unseen, policy).kept);
    FreshIdsDistinct(views, s.covered);
    SplitOrder(unseen, policy);
    SubseqDistinct(SplitViews(unseen, policy).covered, ViewIds(unseen));
    SubseqDistinct(Ids(SplitViews(unseen, policy).kept), SplitViews(unseen, policy).covered);
  }

  /**
   * Every entry of every chunk job a flush queues, or tries to queue, is some view of that flush, not
   * covered before, with the text the redactor made of it; no raw text is queued.
   */
  lemma QueuedEntriesAreRedacted(o: Owner, s: Session, views: seq<View>, policy: Policy, room: nat, n: nat, raw: RawEntry)
    requires var jobs := Flush(o, s, views, policy, room).jobs; n < |jobs| && jobs[n].ChunkJob?
    ensures Flush(o, s, views, policy, room).jobs[n].content.Json? && Flush(o, s, views, policy, room).jobs[n].content.entries.Some?
    ensures ChunkHolds(Flush(o, s, views, policy, room).jobs[n], raw) ==>
              exists v :: v in views && v.id !in s.covered && Redacted(policy, v, raw)
  {
    hide Flush, NewGroups, MakeDraft, ChunkHolds, Redacted;
    QueuedJob(o, s, views, policy, room, n);
    GroupIsRedacted(o, s, views, policy, n, raw);
    DraftHolds(o.cfg, s.nextSeq + n, NewGroups(o, s, views, policy)[n]);
  }

  lemma GroupIsRedacted(o: Owner, s: Session, views: seq<View>, policy: Policy, n: nat, raw: RawEntry)
    requires n < |NewGroups(o, s, views, policy)|
    ensures ChunkHolds(JobOf(MakeDraft(o.cfg, s.nextSeq + n, NewGroups(o, s, views, policy)[n])), raw) ==>
              exists v :: v in views && v.id !in s.covered && Redacted(policy, v, raw)
  {
    hide NewGroups, MakeDraft, ChunkHolds, Redacted, SplitViews, Fresh, Flatten, ChunkNames;
    var groups := NewGroups(o, s, views, policy);
    DraftHolds(o.cfg, s.nextSeq + n, groups[n]);
    if ChunkHolds(JobOf(MakeDraft(o.cfg, s.nextSeq + n, groups[n])), raw) {
      var e :| e in groups[n] && raw == RawOf(e);
      InFlatten(groups, n, e);
      NewGroupsHold(o, s, views, policy);
      KeptAreRedacted(Fresh(views, s.covered), policy, e);
      FreshMembers(views, s.covered);
    }
  }

  /** What is in no group of the flush is in no chunk it queues. */
  lemma NotQueued(o: Owner, s: Session, views: seq<View>, policy: Policy, room: nat, id: string)
    requires id !in Ids(Flatten(NewGroups(o, s, views, policy)))
    ensures var jobs := Flush(o, s, views, policy, room).jobs; forall n :: 0 <= n < |jobs| ==> !ChunkNames(jobs[n], id)
  {
    hide Flush, NewGroups, MakeDraft, ChunkNames, ChunkHolds, Flatten, Ids;
    var jobs := Flush(o, s, views, policy, room).jobs;
    forall n | 0 <= n < |jobs| ensures !ChunkNames(jobs[n], id) {
      if jobs[n].ChunkJob? {
        QueuedJob(o, s, views, policy, room, n);
        var groups := NewGroups(o, s, views, policy);
        DraftHolds(o.cfg, s.nextSeq + n, groups[n]);
        if id in Ids(groups[n]) { IdInFlatten(groups, n, id); }
      } else {
        ManifestNamesNothing(jobs[n], id);
      }
    }
  }

  lemma ManifestNamesNothing(j: Job, id: string)
    requires j.ManifestJob?
    ensures !ChunkNames(j, id)
  {
  }

  /** A view whose redaction failed is in no chunk, and stays uncovered for a later flush. */
  lemma HeldBackIsNeitherQueuedNorCovered(o: Owner, s: Session, views: seq<View>, policy: Policy, room: nat, i: nat)
    requires NewAt(views, s.covered, i) && HeldBack(policy, views[i])
    ensures var f := Flush(o, s, views, policy, room);
            && views[i].id !in f.session.covered
            && forall n :: 0 <= n < |f.jobs| ==> !ChunkNames(f.jobs[n], views[i].id)
  {
    hide NewGroups, MakeDraft, ChunkNames, Flatten, Fresh, SplitViews, HeldBack, Distinct;
    FreshHas(views, s.covered, i);
    FreshIdsDistinct(views, s.covered);
    HeldAreLeft(Fresh(views, s.covered), policy, views[i]);
    NewGroupsHold(o, s, views, policy);
    NotQueued(o, s, views, policy, room, views[i].id);
    hide Records, Drafts, ChunkJobs, ManifestFor;
  }

  /**
   * In a flush that captures, each new view with readable text the redactor could handle is covered
   * and in exactly one queued chunk, with the redactor's text.
   */
  lemma RedactedIsQueuedOnce(o: Owner, s: Session, views: seq<View>, policy: Policy, room: nat, i: nat, text: string)
    returns (n: nat)
    requires NewAt(views, s.covered, i) && Readable(policy, views[i]) && policy.redact(views[i].text.value) == Some(text)
    requires Flush(o, s, views, policy, room).outcome == Captured
    ensures var f, v := Flush(o, s, views, policy, room), views[i];
            && v.id in f.session.covered
            && n < |f.jobs| && ChunkHolds(f.jobs[n], Fields(Some(v.id), v.parent, text))
            && forall m :: 0 <= m < |f.jobs| && m != n ==> !ChunkNames(f.jobs[m], v.id)
  {
    hide Flush, NewGroups, MakeDraft, ChunkNames, ChunkHolds, Flatten, Fresh, SplitViews, Distinct, Redacted, Readable;
    var v := views[i];
    var e := Entry(v.id, v.parent, text);
    var groups := NewGroups(o, s, views, policy);
    FreshHas(views, s.covered, i);
    TextIsRedacted(policy, v, text);
    RedactedAreKept(Fresh(views, s.covered), policy, v, e);
    NewGroupsHold(o, s, views, policy);
    n := InSomeGroup(groups, e);
    CapturedJobs(o, s, views, policy, room);
    var jobs := Flush(o, s, views, policy, room).jobs;
    DraftHolds(o.cfg, s.nextSeq + n, groups[n]);
    assert RawOf(e) == Fields(Some(v.id), v.parent, text);
    IdOfMember(groups[n], e);
    forall m | 0 <= m < |jobs| && m != n ensures !ChunkNames(jobs[m], v.id) {
      if jobs[m].ChunkJob? {
        QueuedJob(o, s, views, policy, room, m);
        DraftHolds(o.cfg, s.nextSeq + m, groups[m]);
        if m < n && v.id in Ids(groups[m]) { OneGroup(groups, m, n, v.id); }
        if n < m { OneGroup(groups, n, m, v.id); }
      } else {
        ManifestNamesNothing(jobs[m], v.id);
      }
    }
  }

  lemma TextIsRedacted(policy: Policy, v: View, text: string)
    requires Readable(policy, v) && policy.redact(v.text.value) == Some(text)
    ensures Redacted(policy, v, RawOf(Entry(v.id, v.parent, text)))
  {
  }

  lemma IdOfMember(es: seq<Entry>, e: Entry)
    requires e in es
    ensures e.id in Ids(es)
  {
    var k :| 0 <= k < |es| && es[k] == e;
    assert Ids(es)[k] == e.id;
  }

  /** A flush that captures queues the chunk of every group, and covers what it looked at. */
  lemma CapturedJobs(o: Owner, s: Session, views: seq<View>, policy: Policy, room: nat)
    requires Flush(o, s, views, policy, room).outcome == Captured
    ensures var f, groups := Flush(o, s, views, policy, room), NewGroups(o, s, views, policy);
            && |groups| <= |f.jobs|
            && (forall k :: 0 <= k < |groups| ==> f.jobs[k] == JobOf(MakeDraft(o.cfg, s.nextSeq + k, groups[k])))
            && f.session.covered == s.covered + SplitViews(Fresh(views, s.covered), policy).covered
            && f.session.omissions == s.omissions + SplitViews(Fresh(views, s.covered), policy).omissions
  {
    hide NewGroups, MakeDraft, Fresh, SplitViews, ManifestFor;
  }

  /**
   * A queue with less room cuts a flush short and makes it throw: the jobs it accepted stay queued, and the
   * views are covered in memory only when every chunk was accepted.
   */
  lemma FlushIsCutOff(o: Owner, s: Session, views: seq<View>, policy: Policy, room: nat, enough: nat)
    requires Flush(o, s, views, policy, enough).outcome == Captured
    ensures var f, whole := Flush(o, s, views, policy, room), Flush(o, s, views, policy, enough);
            && |whole.jobs| <= enough
            && f.jobs == whole.jobs[..Min(room, |whole.jobs|)]
            && f.outcome == (if room < |whole.jobs| then Threw else Captured)
            && f.session.covered == (if room + 1 < |whole.jobs| then s.covered else whole.session.covered)
            && f.session.nextSeq == (if room + 1 < |whole.jobs| then s.nextSeq else whole.session.nextSeq)
            && f.session.omissions == (if room + 1 < |whole.jobs| then s.omissions else whole.session.omissions)
            && (room >= |whole.jobs| ==> f.session == whole.session)
            && var accepted := Min(room, |whole.session.chunks| - |s.chunks|);
               && f.session.chunks == whole.session.chunks[..|s.chunks| + accepted]
               && f.session.groups == whole.session.groups[..|s.groups| + accepted]
  {
    hide NewGroups, Fresh, SplitViews, ManifestFor, MakeDraft;
    var groups := NewGroups(o, s, views, policy);
    var drafts := Drafts(o.cfg, s.nextSeq, groups);
    if room < |drafts| {
      assert ChunkJobs(drafts)[..room] == ChunkJobs(drafts[..room]);
      assert (s.chunks + Records(drafts))[..|s.chunks| + room] == s.chunks + Records(drafts[..room]);
      assert (s.groups + groups)[..|s.groups| + room] == s.groups + groups[..room];
    } else {
      assert (s.chunks + Records(drafts))[..|s.chunks| + |drafts|] == s.chunks + Records(drafts);
      assert (s.groups + groups)[..|s.groups| + |drafts|] == s.groups + groups;
    }
  }

  /** In a flush that captures, a new view left out whole is covered and in no chunk, with its reasons on record. */
  lemma LeftOutIsOnRecord(o: Owner, s: Session, views: seq<View>, policy: Policy, room: nat, i: nat, reason: string)
    requires NewAt(views, s.covered, i) && LeftOutFor(policy, views[i], reason)
    requires Flush(o, s, views, policy, room).outcome == Captured
    ensures var f := Flush(o, s, views, policy, room);
            && views[i].id in f.session.covered && Omission(views[i].id, reason) in f.session.omissions
            && forall n :: 0 <= n < |f.jobs| ==> !ChunkNames(f.jobs[n], views[i].id)
  {
    hide Flush, NewGroups, ChunkNames, Flatten, Fresh, SplitViews, LeftOutFor, Distinct;
    FreshHas(views, s.covered, i);
    FreshIdsDistinct(views, s.covered);
    LeftOutAreNoted(Fresh(views, s.covered), policy, views[i], reason);
    NewGroupsHold(o, s, views, policy);
    NotQueued(o, s, views, policy, room, views[i].id);
    CapturedJobs(o, s, views, policy, room);
  }

  /** A flush does nothing exactly in private mode, without valid exclusion rules, or with nothing new. */
  lemma SkippedIff(o: Owner, s: Session, views: seq<View>, policy: Policy, room: nat)
    ensures var f := Flush(o, s, views, policy, room);
            && (f.outcome == Skipped <==> policy.isPrivate || !policy.exclusionsValid || forall i :: !NewAt(views, s.covered, i))
            && (f.outcome == Skipped ==> f.session == s && f.jobs == [])
  {
    hide NewGroups, Fresh, Advanced, ManifestFor, NewAt;
    var unseen := Fresh(views, s.covered);
    if unseen != [] {
      var i := FirstOf(views, s.covered, unseen[0]);
    }
    if i: nat :| NewAt(views, s.covered, i) {
      FreshHas(views, s.covered, i);
    }
  }

  lemma {:induction false} FirstOf(views: seq<View>, covered: seq<string>, v: View) returns (i: nat)
    requires v in Fresh(views, covered)
    ensures NewAt(views, covered, i) && views[i] == v
    decreases |views|
  {
    var init, last := views[..|views| - 1], views[|views| - 1];
    if v in Fresh(init, covered) {
      i := FirstOf(init, covered, v);
      assert views[i] == init[i] && forall k :: 0 <= k < i ==> views[k] == init[k];
    } else {
      i := |init|;
      forall k | 0 <= k < i ensures views[k].id != views[i].id {
        assert ViewIds(init)[k] in ViewIds(init);
      }
    }
  }

  // ---- over whole runs ------------------------------------------------------------------------------

  /** Some flush of the run saw the view, and its redactor made this of it. */
  ghost predicate RedactedInRun(events: seq<Event>, raw: RawEntry) {
    exists k, v :: 0 <= k < |events| && events[k].Capture? && v in events[k].views && Redacted(events[k].policy, v, raw)
  }

  ghost predicate TextIsClean(events: seq<Event>, t: ChunkText) {
    t.Json? && t.entries.Some? && forall raw :: raw in t.entries.value ==> RedactedInRun(events, raw)
  }

  ghost predicate JobIsClean(events: seq<Event>, j: Job) {
    j.ChunkJob? ==> TextIsClean(events, j.content)
  }

  ghost predicate SentIsClean(events: seq<Event>, sent: map<int, ChunkText>) {
    forall n :: n in sent ==> TextIsClean(events, sent[n])
  }

  ghost predicate StoreIsClean(events: seq<Event>, st: Store) {
    && SentIsClean(events, st.sent)
    && (st.stray.Some? ==> JobIsClean(events, st.stray.value.job))
  }

  lemma MoreEvents(events: seq<Event>, e: Event, st: Store)
    requires StoreIsClean(events, st)
    ensures StoreIsClean(events + [e], st)
  {
    hide Redacted;
    forall raw | RedactedInRun(events, raw) ensures RedactedInRun(events + [e], raw) {
      var k, v :| 0 <= k < |events| && events[k].Capture? && v in events[k].views && Redacted(events[k].policy, v, raw);
      assert (events + [e])[k] == events[k];
    }
    hide RedactedInRun;
  }

  lemma {:induction false} DeliverIsClean(events: seq<Event>, sent: map<int, ChunkText>, jobs: seq<Job>)
    requires SentIsClean(events, sent) && forall j :: j in jobs ==> JobIsClean(events, j)
    ensures SentIsClean(events, Deliver(sent, jobs))
    decreases |jobs|
  {
    hide TextIsClean;
    if jobs != [] {
      var init, last := jobs[..|jobs| - 1], jobs[|jobs| - 1];
      assert last in jobs && JobIsClean(events, last) && forall j :: j in init ==> j in jobs;
      DeliverIsClean(events, sent, init);
      var before := Deliver(sent, init);
      assert Deliver(sent, jobs) == if last.ChunkJob? && last.seqNo !in before then before[last.seqNo := last.content] else before;
    }
  }

  lemma FlushIsClean(events: seq<Event>, o: Owner, s: Session, e: Event)
    requires e.Capture?
    ensures forall j :: j in Flush(o, s, e.views, e.policy, e.room).jobs ==> JobIsClean(events + [e], j)
  {
    hide Flush, Redacted;
    var jobs := Flush(o, s, e.views, e.policy, e.room).jobs;
    forall j | j in jobs && j.ChunkJob? ensures TextIsClean(events + [e], j.content) {
      var n :| 0 <= n < |jobs| && jobs[n] == j;
      QueuedEntriesAreRedacted(o, s, e.views, e.policy, e.room, n, NotAnObject);
      forall raw | raw in j.content.entries.value ensures RedactedInRun(events + [e], raw) {
        QueuedEntriesAreRedacted(o, s, e.views, e.policy, e.room, n, raw);
        LastRedacts(events, e, raw);
      }
    }
  }

  lemma LastRedacts(events: seq<Event>, e: Event, raw: RawEntry)
    requires e.Capture? && exists v :: v in e.views && Redacted(e.policy, v, raw)
    ensures RedactedInRun(events + [e], raw)
  {
    hide Redacted;
    assert (events + [e])[|events|] == e;
  }

  /** The job an enqueue threw at is no different. */
  lemma RefusedIsClean(events: seq<Event>, o: Owner, s: Session, e: Event)
    requires e.Capture? && Refused(o, s, e.views, e.policy, e.room).Some?
    ensures JobIsClean(events + [e], Refused(o, s, e.views, e.policy, e.room).value.job)
  {
    hide Redacted, NewGroups, MakeDraft, Fresh, SplitViews, Advanced, ManifestFor;
    var groups := NewGroups(o, s, e.views, e.policy);
    var j := Refused(o, s, e.views, e.policy, e.room).value.job;
    if j.ChunkJob? {
      assert e.room < |groups| && j == JobOf(MakeDraft(o.cfg, s.nextSeq + e.room, groups[e.room]));
      hide Flush, Refused, Drafts;
      GroupIsClean(events, o, s, e, e.room);
    }
  }

  lemma GroupIsClean(events: seq<Event>, o: Owner, s: Session, e: Event, n: nat)
    requires e.Capture? && n < |NewGroups(o, s, e.views, e.policy)|
    ensures JobIsClean(events + [e], JobOf(MakeDraft(o.cfg, s.nextSeq + n, NewGroups(o, s, e.views, e.policy)[n])))
  {
    hide Redacted, NewGroups, RedactedInRun;
    var j := JobOf(MakeDraft(o.cfg, s.nextSeq + n, NewGroups(o, s, e.views, e.policy)[n]));
    forall raw | raw in j.content.entries.value ensures RedactedInRun(events + [e], raw) {
      GroupIsRedacted(o, s, e.views, e.policy, n, raw);
      LastRedacts(events, e, raw);
    }
  }

  lemma StepIsClean(events: seq<Event>, o: Owner, st: Store, e: Event)
    requires StoreIsClean(events, st)
    ensures StoreIsClean(events + [e], Apply(o, st, e))
  {
    hide SentIsClean, JobIsClean, Flush, Deliver, Refused;
    MoreEvents(events, e, st);
    match e {
      case Restart(_) =>
        if st.stray.Some? {
          assert forall j :: j in [st.stray.value.job] ==> j == st.stray.value.job;
          DeliverIsClean(events + [e], st.sent, [st.stray.value.job]);
        }
      case Capture(_, _, _, _, _) => CaptureIsClean(events, o, st, e);
    }
  }

  lemma CaptureIsClean(events: seq<Event>, o: Owner, st: Store, e: Event)
    requires e.Capture? && StoreIsClean(events + [e], st)
    ensures StoreIsClean(events + [e], Apply(o, st, e))
  {
    hide JobIsClean, SentIsClean, Flush, Deliver, Refused, NewManifest;
    var jobs := Flush(o, st.mem, e.views, e.policy, e.room).jobs;
    FlushIsClean(events, o, st.mem, e);
    DeliverIsClean(events + [e], st.sent, jobs);
    if Refused(o, st.mem, e.views, e.policy, e.room).Some? { RefusedIsClean(events, o, st.mem, e); }
    assert Apply(o, st, e).sent == Deliver(st.sent, jobs);
    assert Apply(o, st, e).stray == StrayAfter(o, st, e.views, e.policy, e.room, e.behind);
  }

  lemma {:induction false} RunIsClean(o: Owner, events: seq<Event>)
    ensures StoreIsClean(events, Run(o, Nothing, events))
    decreases |events|
  {
    hide StoreIsClean, Apply;
    if events == [] {
      NothingIsClean();
    } else {
      var init, e := events[..|events| - 1], events[|events| - 1];
      RunIsClean(o, init);
      StepIsClean(init, o, Run(o, Nothing, init), e);
      LastEvent(o, Nothing, init, e);
      assert init + [e] == events;
    }
  }

  lemma NothingIsClean()
    ensures StoreIsClean([], Nothing)
  {
  }

  lemma {:induction false} LastEvent(o: Owner, st: Store, events: seq<Event>, e: Event)
    ensures Run(o, st, events + [e]) == Apply(o, Run(o, st, events), e)
    decreases |events|
  {
    hide Apply;
    if events == [] {
      assert [] + [e] == [e];
      assert Run(o, st, [e]) == Run(o, Apply(o, st, e), []);
    } else {
      assert (events + [e])[1..] == events[1..] + [e];
      LastEvent(o, Apply(o, st, events[0]), events[1..], e);
    }
  }

  /**
   * Over every run of flushes, throws, failed rewrites and restarts: whatever stands at a chunk path
   * was made by the redactor, from a view that some flush of the run was allowed to back up.
   */
  lemma NoRawTextLeaves(o: Owner, events: seq<Event>, n: int, raw: RawEntry)
    requires var st := Run(o, Nothing, events);
             n in st.sent && st.sent[n].Json? && st.sent[n].entries.Some? && raw in st.sent[n].entries.value
    ensures exists k, v :: 0 <= k < |events| && events[k].Capture? && v in events[k].views && Redacted(events[k].policy, v, raw)
  {
    RunIsClean(o, events);
    hide Run, Redacted;
    assert RedactedInRun(events, raw);
  }
}
