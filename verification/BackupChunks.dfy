/**
 * Backup chunks: the chunk text, its defensive parser, and the splitter that cuts an ordered
 * entry list into chunks under a byte cap.
 *
 * `Groups` says which entries share a chunk; the loop of `ChunkEntries` is proved to produce
 * exactly the drafts of those groups, and what a caller may rely on is proved about the groups.
 */
module BackupChunks {
  import opened Common

  const BACKUP_SCHEMA_VERSION: int := 1
  const MIN_CHUNK_BYTES: int := 256

  datatype ParentRef = Root | Parent(id: string) | NotAnId

  datatype Entry = Entry(id: string, parent: ParentRef, body: string)

  datatype RawEntry = NotAnObject | Fields(id: Option<string>, parent: ParentRef, body: string)

  /** What a chunk file may hold; a field is `None` when absent or of the wrong type. */
  datatype ChunkText =
    | NotJson(bytes: string)
    | Json(kind: Option<string>,
           schemaVersion: Option<int>,
           sessionId: Option<string>,
           seqNo: Option<int>,
           entries: Option<seq<RawEntry>>,
           rest: string)

  /** Content address and length of a chunk's bytes. */
  datatype Codec = Codec(checksum: ChunkText -> string, bytes: ChunkText -> nat)

  datatype ChunkConfig = ChunkConfig(session: string, maxBytes: int, codec: Codec)

  datatype Draft = Draft(
    seqNo: nat,
    content: ChunkText,
    byteLength: nat,
    checksum: string,
    entryIds: seq<string>,
    oversized: bool)

  datatype ChunkError = InvalidMaxChunkBytes

  function Ids(es: seq<Entry>): (ids: seq<string>)
    ensures |ids| == |es|
    ensures forall i :: 0 <= i < |es| ==> ids[i] == es[i].id
  {
    seq(|es|, i requires 0 <= i < |es| => es[i].id)
  }

  function RawOf(e: Entry): RawEntry {
    Fields(Some(e.id), e.parent, e.body)
  }

  function RawEntries(es: seq<Entry>): seq<RawEntry> {
    seq(|es|, i requires 0 <= i < |es| => RawOf(es[i]))
  }

  function SerializeChunk(session: string, seqNo: nat, es: seq<Entry>): ChunkText {
    Json(Some("kiwifs-backup-chunk"), Some(BACKUP_SCHEMA_VERSION), Some(session), Some(seqNo), Some(RawEntries(es)), "")
  }

  // ---- the parser ----------------------------------------------------------------

  datatype Code =
    | ManifestInvalid
    | SchemaUnsupported
    | MissingChunk
    | UnexpectedChunk
    | ChecksumMismatch
    | SeqMismatch
    | SessionMismatch
    | ByteLengthMismatch
    | DuplicateCoverage
    | EntryCountMismatch
    | RangeMismatch
    | IdentityMismatch
    | UnlinkedParent

  datatype ChunkFile = ChunkFile(seqNo: nat, entries: seq<Entry>)

  predicate RawOk(r: RawEntry) {
    r.Fields? && r.id.Some? && r.id.value != ""
  }

  function EntryOf(r: RawEntry): Entry
    requires RawOk(r)
  {
    Entry(r.id.value, r.parent, r.body)
  }

  function ParseEntries(rs: seq<RawEntry>): Result<seq<Entry>, Code> {
    if forall r :: r in rs ==> RawOk(r) then
      Ok(seq(|rs|, i requires 0 <= i < |rs| && RawOk(rs[i]) => EntryOf(rs[i])))
    else Err(ManifestInvalid)
  }

  function ParseChunk(t: ChunkText, session: string): Result<ChunkFile, Code> {
    if t.NotJson? then Err(ChecksumMismatch)
    else if t.kind != Some("kiwifs-backup-chunk") then Err(SchemaUnsupported)
    else if t.schemaVersion.None? || t.schemaVersion.value < 1 then Err(SchemaUnsupported)
    else if t.schemaVersion.value > BACKUP_SCHEMA_VERSION then Err(SchemaUnsupported)
    else if t.sessionId != Some(session) then Err(SessionMismatch)
    else if t.seqNo.None? || t.seqNo.value < 0 then Err(SeqMismatch)
    else if t.entries.None? then Err(ManifestInvalid)
    else
      match ParseEntries(t.entries.value)
      case Err(e) => Err(e)
      case Ok(es) => Ok(ChunkFile(t.seqNo.value, es))
  }

  predicate Named(es: seq<Entry>) {
    forall e :: e in es ==> e.id != ""
  }

  /** What the capture side prints, the verifying side reads back, and for its session only. */
  lemma ParseSerialized(session: string, other: string, seqNo: nat, es: seq<Entry>)
    requires Named(es)
    ensures ParseChunk(SerializeChunk(session, seqNo, es), other) ==
            if session == other then Ok(ChunkFile(seqNo, es)) else Err(SessionMismatch)
  {
    var rs := RawEntries(es);
    forall r | r in rs ensures RawOk(r) {
      var i :| 0 <= i < |rs| && rs[i] == r;
      assert es[i] in es;
    }
    var back := ParseEntries(rs);
    assert back.Ok? && back.value == es;
  }

  /** Every way a chunk can be accepted: the parser accepts nothing else. */
  lemma ParseAccepts(t: ChunkText, session: string)
    requires ParseChunk(t, session).Ok?
    ensures var f := ParseChunk(t, session).value;
            && t == SerializeChunk(session, f.seqNo, f.entries).(rest := t.rest)
            && Named(f.entries)
  {
    var f := ParseChunk(t, session).value;
    var rs := t.entries.value;
    forall i | 0 <= i < |rs| ensures RawOf(f.entries[i]) == rs[i] && f.entries[i].id != "" {
      assert rs[i] in rs;
    }
    assert RawEntries(f.entries) == rs;
  }

  // ---- which entries share a chunk -------------------------------------------------

  function Size(cfg: ChunkConfig, seqNo: nat, es: seq<Entry>): nat {
    cfg.codec.bytes(SerializeChunk(cfg.session, seqNo, es))
  }

  datatype Grouping = Grouping(closed: seq<seq<Entry>>, pending: seq<Entry>)

  /** After an overflow the entry that did not fit is a chunk of its own. */
  function Taken(cfg: ChunkConfig, seqStart: nat, g: Grouping, e: Entry): Grouping {
    var p := g.pending + [e];
    if Size(cfg, seqStart + |g.closed|, p) <= cfg.maxBytes then Grouping(g.closed, p)
    else if g.pending == [] then Grouping(g.closed + [[e]], [])
    else Grouping(g.closed + [g.pending, [e]], [])
  }

  function Grow(cfg: ChunkConfig, seqStart: nat, es: seq<Entry>): Grouping {
    if es == [] then Grouping([], []) else Taken(cfg, seqStart, Grow(cfg, seqStart, es[..|es| - 1]), es[|es| - 1])
  }

  lemma NextEntry(cfg: ChunkConfig, seqStart: nat, es: seq<Entry>, e: Entry)
    ensures Grow(cfg, seqStart, es + [e]) == Taken(cfg, seqStart, Grow(cfg, seqStart, es), e)
  {
    hide Taken;
    assert (es + [e])[..|es + [e]| - 1] == es;
  }

  function Close(g: Grouping): seq<seq<Entry>> {
    if g.pending == [] then g.closed else g.closed + [g.pending]
  }

  function Groups(cfg: ChunkConfig, seqStart: nat, es: seq<Entry>): seq<seq<Entry>> {
    Close(Grow(cfg, seqStart, es))
  }

  function MakeDraft(cfg: ChunkConfig, seqNo: nat, es: seq<Entry>): Draft {
    var content := SerializeChunk(cfg.session, seqNo, es);
    Draft(seqNo, content, cfg.codec.bytes(content), cfg.codec.checksum(content), Ids(es),
          cfg.codec.bytes(content) > cfg.maxBytes)
  }

  function Drafts(cfg: ChunkConfig, seqStart: nat, groups: seq<seq<Entry>>): seq<Draft> {
    seq(|groups|, i requires 0 <= i < |groups| => MakeDraft(cfg, seqStart + i, groups[i]))
  }

  function Flatten(groups: seq<seq<Entry>>): seq<Entry> {
    if groups == [] then [] else Flatten(groups[..|groups| - 1]) + groups[|groups| - 1]
  }

  /** The splitting loop, in its own form. */
  method ChunkEntries(cfg: ChunkConfig, entries: seq<Entry>, seqStart: nat) returns (r: Result<seq<Draft>, ChunkError>)
    ensures r.Err? <==> cfg.maxBytes < MIN_CHUNK_BYTES
    ensures r.Ok? ==> r.value == Drafts(cfg, seqStart, Groups(cfg, seqStart, entries))
  {
    if cfg.maxBytes < MIN_CHUNK_BYTES {
      return Err(InvalidMaxChunkBytes);
    }
    var drafts, pending, seqNo := [], [], seqStart;
    ghost var g := Grouping([], []);
    for i := 0 to |entries|
      invariant g == Grow(cfg, seqStart, entries[..i])
      invariant pending == g.pending && seqNo == seqStart + |g.closed|
      invariant drafts == Drafts(cfg, seqStart, g.closed)
      invariant pending != [] ==> Size(cfg, seqNo, pending) <= cfg.maxBytes
    {
      assert entries[..i + 1][..i] == entries[..i];
      ghost var was := pending;
      pending := pending + [entries[i]];
      var content := SerializeChunk(cfg.session, seqNo, pending);
      if cfg.codec.bytes(content) > cfg.maxBytes {
        if |pending| == 1 {
          assert pending == [entries[i]];
          drafts := Flushed(cfg, drafts, pending, seqNo, true, seqStart, g.closed);
          seqNo := seqNo + 1;
          pending := [];
        } else {
          var carried := pending[|pending| - 1];
          pending := pending[..|pending| - 1];
          assert pending == was;
          drafts := Flushed(cfg, drafts, pending, seqNo, false, seqStart, g.closed);
          seqNo := seqNo + 1;
          pending := [carried];
          var single := SerializeChunk(cfg.session, seqNo, pending);
          drafts := Flushed(cfg, drafts, pending, seqNo, cfg.codec.bytes(single) > cfg.maxBytes, seqStart, g.closed + [was]);
          seqNo := seqNo + 1;
          pending := [];
          assert g.closed + [was] + [[carried]] == g.closed + [was, [carried]];
        }
      }
      ghost var h := Grow(cfg, seqStart, entries[..i + 1]);
      assert entries[..i + 1][i] == entries[i];
      assert drafts == Drafts(cfg, seqStart, h.closed);
      g := h;
    }
    assert entries[..|entries|] == entries;
    if pending != [] {
      drafts := Flushed(cfg, drafts, pending, seqNo, false, seqStart, g.closed);
    }
    return Ok(drafts);
  }

  /** `flush`: one more draft, with the flag the caller decided on. */
  method Flushed(cfg: ChunkConfig, drafts: seq<Draft>, pending: seq<Entry>, seqNo: nat, oversized: bool,
                 ghost seqStart: nat, ghost closed: seq<seq<Entry>>)
    returns (after: seq<Draft>)
    requires drafts == Drafts(cfg, seqStart, closed) && seqNo == seqStart + |closed|
    requires oversized <==> Size(cfg, seqNo, pending) > cfg.maxBytes
    ensures after == Drafts(cfg, seqStart, closed + [pending])
  {
    var content := SerializeChunk(cfg.session, seqNo, pending);
    after := drafts + [Draft(seqNo, content, cfg.codec.bytes(content), cfg.codec.checksum(content), Ids(pending), oversized)];
  }

  // ---- what the splitter promises ----------------------------------------------------

  lemma FlattenPush(groups: seq<seq<Entry>>, g: seq<Entry>)
    ensures Flatten(groups + [g]) == Flatten(groups) + g
  {
    assert (groups + [g])[..|groups|] == groups;
  }

  lemma {:induction false} FlattenConcat(a: seq<seq<Entry>>, b: seq<seq<Entry>>)
    ensures Flatten(a + b) == Flatten(a) + Flatten(b)
    decreases |b|
  {
    if b == [] {
      assert a + b == a;
    } else {
      var init, last := b[..|b| - 1], b[|b| - 1];
      FlattenConcat(a, init);
      assert a + b == (a + init) + [last];
      FlattenPush(a + init, last);
      assert Flatten(a) + Flatten(init) + last == Flatten(a) + (Flatten(init) + last);
    }
  }

  lemma {:induction false} GrowKeepsEntries(cfg: ChunkConfig, seqStart: nat, es: seq<Entry>)
    ensures var g := Grow(cfg, seqStart, es); Flatten(g.closed) + g.pending == es
  {
    hide Taken, Flatten;
    if es == [] {
      FlattenNothing();
    } else {
      var init, e := es[..|es| - 1], es[|es| - 1];
      GrowKeepsEntries(cfg, seqStart, init);
      TakenKeepsEntries(cfg, seqStart, Grow(cfg, seqStart, init), e);
      assert es == init + [e];
    }
  }

  lemma FlattenNothing()
    ensures Flatten([]) == []
  {
  }

  lemma TakenKeepsEntries(cfg: ChunkConfig, seqStart: nat, g: Grouping, e: Entry)
    ensures var t := Taken(cfg, seqStart, g, e); Flatten(t.closed) + t.pending == Flatten(g.closed) + g.pending + [e]
  {
    hide Flatten, Size;
    FlattenPush(g.closed, [e]);
    FlattenPush(g.closed, g.pending);
    FlattenPush(g.closed + [g.pending], [e]);
    assert g.closed + [g.pending] + [[e]] == g.closed + [g.pending, [e]];
  }

  /** Nothing lost, nothing reordered. */
  lemma GroupsConcatenate(cfg: ChunkConfig, seqStart: nat, es: seq<Entry>)
    ensures Flatten(Groups(cfg, seqStart, es)) == es
  {
    GrowKeepsEntries(cfg, seqStart, es);
    var g := Grow(cfg, seqStart, es);
    FlattenPush(g.closed, g.pending);
  }

  ghost predicate Fits(cfg: ChunkConfig, seqNo: nat, g: seq<Entry>) {
    g != [] && (Size(cfg, seqNo, g) > cfg.maxBytes ==> |g| == 1)
  }

  /** Two neighbours are never both long, and a long one had no room for what follows it. */
  ghost predicate Tight(cfg: ChunkConfig, seqNo: nat, g: seq<Entry>, next: seq<Entry>) {
    && next != []
    && (|g| > 1 ==> |next| == 1 && Size(cfg, seqNo, g + next) > cfg.maxBytes)
  }

  lemma {:induction false} GrowFits(cfg: ChunkConfig, seqStart: nat, es: seq<Entry>)
    ensures var g := Grow(cfg, seqStart, es);
            && (forall i :: 0 <= i < |g.closed| ==> Fits(cfg, seqStart + i, g.closed[i]))
            && (g.pending != [] ==> Size(cfg, seqStart + |g.closed|, g.pending) <= cfg.maxBytes)
            && (forall i :: 0 <= i < |g.closed| - 1 ==> Tight(cfg, seqStart + i, g.closed[i], g.closed[i + 1]))
            && (g.closed != [] ==> |g.closed[|g.closed| - 1]| == 1)
  {
    hide Size;
    if es != [] {
      GrowFits(cfg, seqStart, es[..|es| - 1]);
    }
  }

  /**
   * Numbering is consecutive; a chunk is over the cap exactly when it is flagged, and then it
   * holds one entry; no chunk is empty, and no chunk was closed early.
   */
  lemma DraftsRespectTheCap(cfg: ChunkConfig, seqStart: nat, es: seq<Entry>, i: nat)
    requires i < |Groups(cfg, seqStart, es)|
    ensures var groups := Groups(cfg, seqStart, es);
            var d := Drafts(cfg, seqStart, groups)[i];
            && d.seqNo == seqStart + i
            && d.content == SerializeChunk(cfg.session, d.seqNo, groups[i]) && d.entryIds == Ids(groups[i])
            && (d.oversized <==> d.byteLength > cfg.maxBytes)
            && (d.oversized ==> |d.entryIds| == 1)
            && d.entryIds != []
            && (i + 1 < |groups| ==> Tight(cfg, d.seqNo, groups[i], groups[i + 1]))
  {
    GrowFits(cfg, seqStart, es);
  }

  lemma {:induction false} GrowPrefix(cfg: ChunkConfig, seqStart: nat, es: seq<Entry>, more: seq<Entry>)
    ensures Grow(cfg, seqStart, es).closed <= Grow(cfg, seqStart, es + more).closed
    decreases |more|
  {
    if more == [] {
      assert es + more == es;
    } else {
      assert (es + more)[..|es + more| - 1] == es + more[..|more| - 1];
      GrowPrefix(cfg, seqStart, es, more[..|more| - 1]);
    }
  }

  /** Appending entries leaves every draft but the last as it was. */
  lemma AppendingKeepsEarlierDrafts(cfg: ChunkConfig, seqStart: nat, es: seq<Entry>, more: seq<Entry>)
    ensures var before, after := Drafts(cfg, seqStart, Groups(cfg, seqStart, es)),
                                 Drafts(cfg, seqStart, Groups(cfg, seqStart, es + more));
            |before| <= |after| && forall i :: 0 <= i < |before| - 1 ==> before[i] == after[i]
  {
    GrowPrefix(cfg, seqStart, es, more);
    var g, h := Grow(cfg, seqStart, es), Grow(cfg, seqStart, es + more);
    assert forall i :: 0 <= i < |g.closed| ==> h.closed[i] == g.closed[i];
    if g.pending != [] && |h.closed| == |g.closed| {
      GrowKeepsEntries(cfg, seqStart, es);
      GrowKeepsEntries(cfg, seqStart, es + more);
      assert h.closed == g.closed;
    }
  }

  /** The open chunk at the end of one call goes on filling when entries are appended. */
  lemma {:induction false} PendingStaysInFront(cfg: ChunkConfig, seqStart: nat, es: seq<Entry>, more: seq<Entry>)
    requires Grow(cfg, seqStart, es).pending != []
    ensures var g, h := Grow(cfg, seqStart, es), Grow(cfg, seqStart, es + more);
            var k := |g.closed|;
            && k <= |h.closed|
            && (if k < |h.closed| then g.pending <= h.closed[k] else g.pending <= h.pending)
    decreases |more|
  {
    if more == [] {
      assert es + more == es;
    } else {
      assert (es + more)[..|es + more| - 1] == es + more[..|more| - 1];
      PendingStaysInFront(cfg, seqStart, es, more[..|more| - 1]);
    }
  }

  /**
   * The last draft survives appending exactly when it was closed by an overflow, nothing is
   * appended, or the first appended entry does not fit into it.
   */
  lemma LastDraftSurvivesIff(cfg: ChunkConfig, seqStart: nat, es: seq<Entry>, more: seq<Entry>)
    requires Groups(cfg, seqStart, es) != []
    ensures var before, after := Drafts(cfg, seqStart, Groups(cfg, seqStart, es)),
                                 Drafts(cfg, seqStart, Groups(cfg, seqStart, es + more));
            var g, last := Grow(cfg, seqStart, es), |before| - 1;
            && last < |after|
            && (after[last] == before[last] <==>
                  || g.pending == [] || more == []
                  || Size(cfg, seqStart + last, g.pending + [more[0]]) > cfg.maxBytes)
  {
    hide Size, SerializeChunk, Grow, Groups;
    var before, after := Groups(cfg, seqStart, es), Groups(cfg, seqStart, es + more);
    var last := |before| - 1;
    FirstAppended(cfg, seqStart, es, more);
    assert |Ids(before[last])| == |before[last]| && |Ids(after[last])| == |after[last]|;
  }

  lemma FirstAppended(cfg: ChunkConfig, seqStart: nat, es: seq<Entry>, more: seq<Entry>)
    requires Groups(cfg, seqStart, es) != []
    ensures var before, after := Groups(cfg, seqStart, es), Groups(cfg, seqStart, es + more);
            var pending, last := Grow(cfg, seqStart, es).pending, |before| - 1;
            && last < |after|
            && (if pending == [] || more == [] || Size(cfg, seqStart + last, pending + [more[0]]) > cfg.maxBytes
                then after[last] == before[last] else |before[last]| < |after[last]|)
  {
    hide Size, Grow;
    var g, h := Grow(cfg, seqStart, es), Grow(cfg, seqStart, es + more);
    if more == [] {
      assert es + more == es;
    } else if g.pending == [] {
      GrowPrefix(cfg, seqStart, es, more);
    } else {
      PendingGoesOn(cfg, seqStart, es, more);
    }
  }

  /** Entries behind an open chunk: it is closed as it is when the first of them does not fit. */
  lemma PendingGoesOn(cfg: ChunkConfig, seqStart: nat, es: seq<Entry>, more: seq<Entry>)
    requires Grow(cfg, seqStart, es).pending != [] && more != []
    ensures var g, h := Grow(cfg, seqStart, es), Grow(cfg, seqStart, es + more);
            var k := |g.closed|;
            && k <= |h.closed|
            && (if Size(cfg, seqStart + k, g.pending + [more[0]]) > cfg.maxBytes then k < |h.closed| && h.closed[k] == g.pending
                else if k < |h.closed| then |g.pending| < |h.closed[k]| else |g.pending| < |h.pending|)
  {
    hide Size, Grow;
    var g, next := Grow(cfg, seqStart, es), Grow(cfg, seqStart, es + [more[0]]);
    NextEntry(cfg, seqStart, es, more[0]);
    assert es + [more[0]] + more[1..] == es + more;
    if next.pending == [] {
      GrowPrefix(cfg, seqStart, es + [more[0]], more[1..]);
      assert next.closed[|g.closed|] == g.pending;
    } else {
      PendingStaysInFront(cfg, seqStart, es + [more[0]], more[1..]);
    }
  }
}
