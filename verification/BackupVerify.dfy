/**
 * Backup verification: an independent check of a manifest against the delivered chunk bytes.
 *
 * `Check` is the list of issue codes the verifier reports, in its order; `VerifyBackup` is the
 * verifier in its own loops, proved to report exactly that list. `BackupValid` says what a valid
 * backup is without any of the verifier's bookkeeping, and `NoIssuesIffValid` ties the two.
 */
module BackupVerify {
  import opened Common
  import opened BackupChunks

  datatype ManifestChunk = ManifestChunk(
    seqNo: int,
    checksum: string,
    byteLength: int,
    entryIds: seq<string>,
    oversized: bool)

  datatype Manifest = Manifest(
    schemaVersion: int,
    sessionId: string,
    projectId: string,
    scope: string,
    firstEntryId: Option<string>,
    lastEntryId: Option<string>,
    entryCount: int,
    chunks: seq<ManifestChunk>)

  datatype VerifyInput = VerifyInput(
    manifest: Manifest,
    chunks: map<int, ChunkText>,
    sessionId: string,
    projectId: string,
    scope: Option<string>,
    codec: Codec)

  function Seqs(records: seq<ManifestChunk>): set<int> {
    set r | r in records :: r.seqNo
  }

  // ---- the issue list --------------------------------------------------------------

  function When(c: bool, code: Code): seq<Code> {
    if c then [code] else []
  }

  function Times(n: nat, code: Code): seq<Code> {
    seq(n, _ => code)
  }

  function IdentityIssues(input: VerifyInput): seq<Code> {
    When(input.manifest.schemaVersion > BACKUP_SCHEMA_VERSION, SchemaUnsupported)
    + When(input.manifest.sessionId != input.sessionId, SessionMismatch)
    + When(input.manifest.projectId != input.projectId, IdentityMismatch)
    + When(input.scope.Some? && input.scope.value != input.manifest.scope, IdentityMismatch)
  }

  /** A repeated id is reported once per repetition, counting the ids of earlier chunks. */
  function DuplicateIssues(prior: seq<string>, ids: seq<string>): seq<Code> {
    if ids == [] then []
    else
      var init, last := ids[..|ids| - 1], ids[|ids| - 1];
      DuplicateIssues(prior, init) + When(last in prior + init, DuplicateCoverage)
  }

  function LinkIssues(prior: seq<Entry>, es: seq<Entry>): seq<Code> {
    if es == [] then []
    else
      var init, last := es[..|es| - 1], es[|es| - 1];
      LinkIssues(prior, init) + When(!Linked(prior + init, last), UnlinkedParent)
  }

  /** A parent is absent or was delivered before. */
  predicate Linked(earlier: seq<Entry>, e: Entry) {
    match e.parent
    case Root => true
    case Parent(id) => id in Ids(earlier)
    case NotAnId => false
  }

  /** What one declared chunk contributes apart from coverage. */
  function RecordIssues(input: VerifyInput, r: ManifestChunk): seq<Code> {
    if r.seqNo !in input.chunks then [MissingChunk]
    else
      var text := input.chunks[r.seqNo];
      When(input.codec.checksum(text) != r.checksum, ChecksumMismatch)
      + (match ParseChunk(text, input.manifest.sessionId)
         case Err(code) => [code]
         case Ok(f) =>
           When(f.seqNo != r.seqNo, SeqMismatch)
           + When(input.codec.bytes(text) != r.byteLength, ByteLengthMismatch)
           + When(Ids(f.entries) != r.entryIds, ManifestInvalid))
  }

  function Delivered(input: VerifyInput, r: ManifestChunk): seq<Entry> {
    if r.seqNo !in input.chunks then []
    else
      match ParseChunk(input.chunks[r.seqNo], input.manifest.sessionId)
      case Err(_) => []
      case Ok(f) => f.entries
  }

  /** Everything the delivered chunks carry, in manifest order. */
  function Covered(input: VerifyInput, records: seq<ManifestChunk>): seq<Entry> {
    if records == [] then []
    else Covered(input, records[..|records| - 1]) + Delivered(input, records[|records| - 1])
  }

  function ScanIssues(input: VerifyInput, records: seq<ManifestChunk>): seq<Code> {
    if records == [] then []
    else
      var init, r := records[..|records| - 1], records[|records| - 1];
      ScanIssues(input, init) + RecordIssues(input, r)
      + DuplicateIssues(Ids(Covered(input, init)), Ids(Delivered(input, r)))
  }

  function ScanLinks(input: VerifyInput, records: seq<ManifestChunk>): seq<Code> {
    if records == [] then []
    else
      var init, r := records[..|records| - 1], records[|records| - 1];
      ScanLinks(input, init) + LinkIssues(Covered(input, init), Delivered(input, r))
  }

  function Misfiled(input: VerifyInput, r: ManifestChunk): bool {
    && r.seqNo in input.chunks
    && ParseChunk(input.chunks[r.seqNo], input.manifest.sessionId).Ok?
    && ParseChunk(input.chunks[r.seqNo], input.manifest.sessionId).value.seqNo != r.seqNo
  }

  predicate Ordered(input: VerifyInput, records: seq<ManifestChunk>) {
    forall r :: r in records ==> !Misfiled(input, r)
  }

  function RangeIssues(m: Manifest, ids: seq<string>, ordered: bool): seq<Code> {
    When(m.entryCount != |ids| && ordered, EntryCountMismatch)
    + When(m.entryCount > 0 && m.firstEntryId.None?, RangeMismatch)
    + When(m.entryCount > 0 && m.lastEntryId.None?, RangeMismatch)
    + When(m.firstEntryId.Some? && ids != [] && m.firstEntryId.value != ids[0], RangeMismatch)
    + When(m.lastEntryId.Some? && ids != [] && m.lastEntryId.value != ids[|ids| - 1], RangeMismatch)
  }

  function Extra(input: VerifyInput): set<int> {
    input.chunks.Keys - Seqs(input.manifest.chunks)
  }

  function Check(input: VerifyInput): seq<Code> {
    var records := input.manifest.chunks;
    IdentityIssues(input)
    + Times(|Extra(input)|, UnexpectedChunk)
    + ScanIssues(input, records)
    + RangeIssues(input.manifest, Ids(Covered(input, records)), Ordered(input, records))
    + ScanLinks(input, records)
  }

  // ---- the verifier, in its own form -------------------------------------------------

  lemma NonemptyHasMember(s: set<int>)
    requires s != {}
    ensures exists n :: n in s
  {
    assert (forall n :: n !in s) ==> s == {};
  }

  method Unexpected(input: VerifyInput) returns (issues: seq<Code>)
    ensures issues == Times(|Extra(input)|, UnexpectedChunk)
  {
    issues := [];
    var left: set<int> := input.chunks.Keys;
    var declared := Seqs(input.manifest.chunks);
    while left != {}
      invariant left <= input.chunks.Keys
      invariant |left - declared| <= |Extra(input)|
      invariant issues == Times(|Extra(input)| - |left - declared|, UnexpectedChunk)
      decreases |left|
    {
      NonemptyHasMember(left);
      var n :| n in left;
      if n !in declared {
        issues := issues + [UnexpectedChunk];
        assert (left - {n}) - declared == (left - declared) - {n};
      } else {
        assert (left - {n}) - declared == left - declared;
      }
      left := left - {n};
    }
  }

  method ScanRecord(input: VerifyInput, r: ManifestChunk)
    returns (issues: seq<Code>, ids: seq<string>, misfiled: bool)
    ensures issues == RecordIssues(input, r)
    ensures ids == Ids(Delivered(input, r))
    ensures misfiled == Misfiled(input, r)
  {
    if r.seqNo !in input.chunks {
      return [MissingChunk], [], false;
    }
    var text := input.chunks[r.seqNo];
    issues := [];
    if input.codec.checksum(text) != r.checksum { issues := issues + [ChecksumMismatch]; }
    var parsed := ParseChunk(text, input.manifest.sessionId);
    if parsed.Err? {
      return issues + [parsed.error], [], false;
    }
    misfiled := parsed.value.seqNo != r.seqNo;
    if misfiled { issues := issues + [SeqMismatch]; }
    if input.codec.bytes(text) != r.byteLength { issues := issues + [ByteLengthMismatch]; }
    ids := Ids(parsed.value.entries);
    if ids != r.entryIds { issues := issues + [ManifestInvalid]; }
  }

  method ScanIds(prior: seq<string>, ids: seq<string>) returns (issues: seq<Code>)
    ensures issues == DuplicateIssues(prior, ids)
  {
    issues := [];
    var seen := set id | id in prior :: id;
    for i := 0 to |ids|
      invariant issues == DuplicateIssues(prior, ids[..i])
      invariant forall id :: id in seen <==> id in prior + ids[..i]
    {
      assert ids[..i + 1][..i] == ids[..i];
      if ids[i] in seen { issues := issues + [DuplicateCoverage]; }
      seen := seen + {ids[i]};
    }
    assert ids[..|ids|] == ids;
  }

  method LinkChunk(prior: seq<Entry>, es: seq<Entry>) returns (issues: seq<Code>)
    ensures issues == LinkIssues(prior, es)
  {
    issues := [];
    var seen := set id | id in Ids(prior) :: id;
    assert prior + es[..0] == prior;
    for i := 0 to |es|
      invariant issues == LinkIssues(prior, es[..i])
      invariant forall id :: id in seen <==> id in Ids(prior + es[..i])
    {
      assert es[..i + 1][..i] == es[..i];
      var e := es[i];
      if !(e.parent.Root? || (e.parent.Parent? && e.parent.id in seen)) { issues := issues + [UnlinkedParent]; }
      seen := seen + {e.id};
      assert prior + es[..i + 1] == prior + es[..i] + [e];
      IdsPush(prior + es[..i], e);
    }
    assert es[..|es|] == es;
  }

  lemma IdsPush(es: seq<Entry>, e: Entry)
    ensures Ids(es + [e]) == Ids(es) + [e.id]
  {
  }

  lemma IdsConcat(a: seq<Entry>, b: seq<Entry>)
    ensures Ids(a + b) == Ids(a) + Ids(b)
  {
  }

  method CheckIdentity(input: VerifyInput) returns (issues: seq<Code>)
    ensures issues == IdentityIssues(input)
  {
    var m := input.manifest;
    issues := [];
    if m.schemaVersion > BACKUP_SCHEMA_VERSION { issues := issues + [SchemaUnsupported]; }
    if m.sessionId != input.sessionId { issues := issues + [SessionMismatch]; }
    if m.projectId != input.projectId { issues := issues + [IdentityMismatch]; }
    if input.scope.Some? && input.scope.value != m.scope { issues := issues + [IdentityMismatch]; }
  }

  method CheckRange(m: Manifest, covered: seq<string>, orderedOk: bool) returns (issues: seq<Code>)
    ensures issues == RangeIssues(m, covered, orderedOk)
  {
    issues := [];
    if m.entryCount != |covered| && orderedOk { issues := issues + [EntryCountMismatch]; }
    if m.entryCount > 0 {
      if m.firstEntryId.None? { issues := issues + [RangeMismatch]; }
      if m.lastEntryId.None? { issues := issues + [RangeMismatch]; }
    }
    if m.firstEntryId.Some? && |covered| > 0 && m.firstEntryId.value != covered[0] {
      issues := issues + [RangeMismatch];
    }
    if m.lastEntryId.Some? && |covered| > 0 && m.lastEntryId.value != covered[|covered| - 1] {
      issues := issues + [RangeMismatch];
    }
  }

  method ScanChunks(input: VerifyInput) returns (issues: seq<Code>, covered: seq<string>, orderedOk: bool)
    ensures issues == ScanIssues(input, input.manifest.chunks)
    ensures covered == Ids(Covered(input, input.manifest.chunks))
    ensures orderedOk <==> Ordered(input, input.manifest.chunks)
  {
    hide RecordIssues, DuplicateIssues, Delivered, Misfiled, Ids;
    var records := input.manifest.chunks;
    issues, covered, orderedOk := [], Ids([]), true;
    for i := 0 to |records|
      invariant issues == ScanIssues(input, records[..i])
      invariant covered == Ids(Covered(input, records[..i]))
      invariant orderedOk <==> Ordered(input, records[..i])
    {
      assert records[..i + 1][..i] == records[..i];
      IdsConcat(Covered(input, records[..i]), Delivered(input, records[i]));
      var found, ids, misfiled := ScanRecord(input, records[i]);
      var repeated := ScanIds(covered, ids);
      issues := issues + found + repeated;
      covered := covered + ids;
      if misfiled { orderedOk := false; }
      assert records[..i + 1] == records[..i] + [records[i]];
    }
    assert records[..|records|] == records;
  }

  method ScanTree(input: VerifyInput) returns (issues: seq<Code>)
    ensures issues == ScanLinks(input, input.manifest.chunks)
  {
    hide Delivered, LinkIssues;
    var records := input.manifest.chunks;
    issues := [];
    for i := 0 to |records|
      invariant issues == ScanLinks(input, records[..i])
    {
      assert records[..i + 1][..i] == records[..i];
      var links := LinkChunk(Covered(input, records[..i]), Delivered(input, records[i]));
      issues := issues + links;
    }
    assert records[..|records|] == records;
  }

  method VerifyBackup(input: VerifyInput) returns (ok: bool, issues: seq<Code>, covered: seq<string>)
    ensures issues == Check(input)
    ensures ok <==> issues == []
    ensures covered == Ids(Covered(input, input.manifest.chunks))
  {
    hide IdentityIssues, ScanIssues, RangeIssues, ScanLinks, Covered, Ordered, Extra;
    var identity := CheckIdentity(input);
    var extra := Unexpected(input);
    var found, ids, orderedOk := ScanChunks(input);
    var range := CheckRange(input.manifest, ids, orderedOk);
    var links := ScanTree(input);
    issues := identity + extra + found + range + links;
    ok := issues == [];
    covered := ids;
  }

  // ---- what a valid backup is ----------------------------------------------------------

  ghost predicate Distinct(ids: seq<string>) {
    forall i, j :: 0 <= i < j < |ids| ==> ids[i] != ids[j]
  }

  ghost predicate AllLinked(es: seq<Entry>) {
    forall i :: 0 <= i < |es| ==> Linked(es[..i], es[i])
  }

  ghost predicate RecordValid(input: VerifyInput, r: ManifestChunk) {
    && r.seqNo in input.chunks
    && var text := input.chunks[r.seqNo];
       && input.codec.checksum(text) == r.checksum
       && input.codec.bytes(text) == r.byteLength
       && ParseChunk(text, input.manifest.sessionId).Ok?
       && var f := ParseChunk(text, input.manifest.sessionId).value;
          f.seqNo == r.seqNo && Ids(f.entries) == r.entryIds
  }

  ghost predicate RangeValid(m: Manifest, ids: seq<string>) {
    && m.entryCount == |ids|
    && (ids != [] ==> m.firstEntryId == Some(ids[0]) && m.lastEntryId == Some(ids[|ids| - 1]))
  }

  /**
   * The manifest belongs to the requested session, project and scope; the delivered chunks are
   * exactly the declared ones, byte for byte; every entry is delivered once, parents first; and
   * the declared range is the delivered one.
   */
  ghost predicate BackupValid(input: VerifyInput) {
    var m := input.manifest;
    var es := Covered(input, m.chunks);
    && m.schemaVersion <= BACKUP_SCHEMA_VERSION
    && m.sessionId == input.sessionId && m.projectId == input.projectId
    && (input.scope.Some? ==> input.scope.value == m.scope)
    && input.chunks.Keys == Seqs(m.chunks)
    && (forall r :: r in m.chunks ==> RecordValid(input, r))
    && Distinct(Ids(es))
    && RangeValid(m, Ids(es))
    && AllLinked(es)
  }

  lemma {:induction false} NoDuplicateIssues(prior: seq<string>, ids: seq<string>)
    requires Distinct(prior)
    ensures DuplicateIssues(prior, ids) == [] <==> Distinct(prior + ids)
  {
    if ids == [] {
      assert prior + ids == prior;
    } else {
      var init, last := ids[..|ids| - 1], ids[|ids| - 1];
      NoDuplicateIssues(prior, init);
      assert prior + ids == prior + init + [last];
      if last in prior + init {
        var k :| 0 <= k < |prior + init| && (prior + init)[k] == last;
        assert (prior + ids)[k] == (prior + ids)[|prior + ids| - 1];
      }
      if Distinct(prior + ids) {
        assert forall k :: 0 <= k < |prior + init| ==> (prior + init)[k] == (prior + ids)[k];
      }
    }
  }

  lemma {:induction false} NoLinkIssues(prior: seq<Entry>, es: seq<Entry>)
    requires AllLinked(prior)
    ensures LinkIssues(prior, es) == [] <==> AllLinked(prior + es)
  {
    if es == [] {
      assert prior + es == prior;
    } else {
      var init, last := es[..|es| - 1], es[|es| - 1];
      NoLinkIssues(prior, init);
      var whole := prior + es;
      assert whole == prior + init + [last];
      assert forall k :: 0 <= k < |prior + init| ==> whole[..k] == (prior + init)[..k] && whole[k] == (prior + init)[k];
      assert whole[..|whole| - 1] == prior + init && whole[|whole| - 1] == last;
    }
  }

  lemma DistinctPrefix(a: seq<string>, b: seq<string>)
    requires Distinct(a + b)
    ensures Distinct(a)
  {
    assert forall k :: 0 <= k < |a| ==> a[k] == (a + b)[k];
  }

  lemma LinkedPrefix(a: seq<Entry>, b: seq<Entry>)
    requires AllLinked(a + b)
    ensures AllLinked(a)
  {
    assert forall k :: 0 <= k < |a| ==> a[k] == (a + b)[k] && a[..k] == (a + b)[..k];
  }

  lemma RecordIssuesIff(input: VerifyInput, r: ManifestChunk)
    ensures RecordIssues(input, r) == [] <==> RecordValid(input, r)
  {
  }

  lemma {:induction false} ScanFindsNothingIff(input: VerifyInput, records: seq<ManifestChunk>)
    ensures ScanIssues(input, records) == [] <==>
            (forall r :: r in records ==> RecordValid(input, r)) && Distinct(Ids(Covered(input, records)))
  {
    hide RecordValid, RecordIssues, Delivered;
    if records != [] {
      var init, r := records[..|records| - 1], records[|records| - 1];
      assert records == init + [r];
      var a, b := Covered(input, init), Delivered(input, r);
      ScanFindsNothingIff(input, init);
      RecordIssuesIff(input, r);
      IdsConcat(a, b);
      if Distinct(Ids(a)) {
        NoDuplicateIssues(Ids(a), Ids(b));
      } else if Distinct(Ids(a) + Ids(b)) {
        DistinctPrefix(Ids(a), Ids(b));
      }
    }
  }

  lemma {:induction false} LinksFindNothingIff(input: VerifyInput, records: seq<ManifestChunk>)
    ensures ScanLinks(input, records) == [] <==> AllLinked(Covered(input, records))
  {
    hide Delivered;
    if records != [] {
      var init, r := records[..|records| - 1], records[|records| - 1];
      var a, b := Covered(input, init), Delivered(input, r);
      LinksFindNothingIff(input, init);
      if AllLinked(a) {
        NoLinkIssues(a, b);
      } else if AllLinked(a + b) {
        LinkedPrefix(a, b);
      }
    }
  }

  lemma ValidRecordsAreOrdered(input: VerifyInput, records: seq<ManifestChunk>)
    requires forall r :: r in records ==> RecordValid(input, r)
    ensures Ordered(input, records)
  {
  }

  lemma RangeIssuesIff(m: Manifest, ids: seq<string>)
    ensures RangeIssues(m, ids, true) == [] <==> RangeValid(m, ids)
  {
  }

  lemma NoExtraIff(input: VerifyInput)
    requires forall r :: r in input.manifest.chunks ==> r.seqNo in input.chunks
    ensures |Extra(input)| == 0 <==> input.chunks.Keys == Seqs(input.manifest.chunks)
  {
    assert Seqs(input.manifest.chunks) <= input.chunks.Keys;
    assert |Extra(input)| == 0 <==> Extra(input) == {};
    assert Extra(input) == {} <==> input.chunks.Keys <= Seqs(input.manifest.chunks);
  }

  /** The verifier accepts exactly the valid backups. */
  lemma NoIssuesIffValid(input: VerifyInput)
    ensures Check(input) == [] <==> BackupValid(input)
  {
    var records := input.manifest.chunks;
    var ids := Ids(Covered(input, records));
    ScanFindsNothingIff(input, records);
    LinksFindNothingIff(input, records);
    RangeIssuesIff(input.manifest, ids);
    if forall r :: r in records ==> RecordValid(input, r) {
      ValidRecordsAreOrdered(input, records);
      NoExtraIff(input);
    }
    CheckEmptyIff(input);
    hide Check, RecordValid, Covered, ScanIssues, ScanLinks, RangeIssues, RangeValid, AllLinked, Distinct, Ordered;
  }

  lemma CheckEmptyIff(input: VerifyInput)
    ensures Check(input) == [] <==>
            && IdentityIssues(input) == [] && |Extra(input)| == 0
            && ScanIssues(input, input.manifest.chunks) == []
            && RangeIssues(input.manifest, Ids(Covered(input, input.manifest.chunks)), Ordered(input, input.manifest.chunks)) == []
            && ScanLinks(input, input.manifest.chunks) == []
  {
    hide IdentityIssues, ScanIssues, ScanLinks, RangeIssues, Covered, Ordered, Extra;
  }

  // ---- what acceptance is worth ----------------------------------------------------------

  /** Where following `parentId` leads. */
  datatype Climb = AtRoot | At(id: string) | Lost

  function EntryWithId(es: seq<Entry>, id: string): (r: Option<Entry>)
    ensures r.Some? ==> r.value in es && r.value.id == id
    ensures r.None? ==> id !in Ids(es)
  {
    if es == [] then None
    else if es[0].id == id then Some(es[0])
    else
      assert Ids(es) == [es[0].id] + Ids(es[1..]);
      EntryWithId(es[1..], id)
  }

  function StepUp(es: seq<Entry>, at: Climb): Climb {
    match at
    case AtRoot => AtRoot
    case Lost => Lost
    case At(id) =>
      match EntryWithId(es, id)
      case None => Lost
      case Some(e) =>
        match e.parent
        case Root => AtRoot
        case Parent(p) => At(p)
        case NotAnId => Lost
  }

  function ClimbFrom(es: seq<Entry>, at: Climb, steps: nat): Climb
    decreases steps
  {
    if steps == 0 then at else ClimbFrom(es, StepUp(es, at), steps - 1)
  }

  lemma {:induction false} RootStays(es: seq<Entry>, steps: nat)
    ensures ClimbFrom(es, AtRoot, steps) == AtRoot
  {
    if steps > 0 { RootStays(es, steps - 1); }
  }

  lemma LookupFindsIt(es: seq<Entry>, i: nat)
    requires Distinct(Ids(es)) && i < |es|
    ensures EntryWithId(es, es[i].id) == Some(es[i])
  {
    hide EntryWithId, Distinct, Ids;
    IdAt(es, i);
    var k := PlaceOf(es, EntryWithId(es, es[i].id).value);
    IdAt(es, k);
    SamePlace(Ids(es), k, i);
  }

  lemma PlaceOf(es: seq<Entry>, e: Entry) returns (k: nat)
    requires e in es
    ensures k < |es| && es[k] == e
  {
    k :| 0 <= k < |es| && es[k] == e;
  }

  lemma IdAt(es: seq<Entry>, i: nat)
    requires i < |es|
    ensures |Ids(es)| == |es| && Ids(es)[i] == es[i].id && es[i].id in Ids(es)
  {
    assert Ids(es)[i] in Ids(es);
  }

  lemma SamePlace(ids: seq<string>, i: nat, j: nat)
    requires Distinct(ids) && i < |ids| && j < |ids| && ids[i] == ids[j]
    ensures i == j
  {
  }

  lemma {:induction false} ClimbReachesRoot(es: seq<Entry>, i: nat, steps: nat)
    requires Distinct(Ids(es)) && AllLinked(es) && i < |es| && steps > i
    ensures ClimbFrom(es, At(es[i].id), steps) == AtRoot
    decreases i
  {
    hide EntryWithId, Distinct;
    var e := es[i];
    LookupFindsIt(es, i);
    assert Linked(es[..i], e);
    match e.parent {
      case Root => RootStays(es, steps - 1);
      case Parent(p) =>
        var j :| 0 <= j < i && Ids(es[..i])[j] == p;
        assert es[j].id == p;
        ClimbReachesRoot(es, j, steps - 1);
      case NotAnId => assert false;
    }
  }

  /**
   * An accepted backup is complete and is a forest: the delivered seqs are the declared ones, no
   * entry comes twice, and every entry reaches a root in at most as many steps as there are entries.
   */
  lemma AcceptedBackupIsAForest(input: VerifyInput, i: nat)
    requires Check(input) == []
    requires i < |Covered(input, input.manifest.chunks)|
    ensures input.chunks.Keys == Seqs(input.manifest.chunks)
    ensures var es := Covered(input, input.manifest.chunks);
            Distinct(Ids(es)) && ClimbFrom(es, At(es[i].id), |es|) == AtRoot
  {
    NoIssuesIffValid(input);
    var es := Covered(input, input.manifest.chunks);
    ClimbReachesRoot(es, i, |es|);
  }

  ghost predicate CollisionFree(codec: Codec) {
    forall a, b :: codec.checksum(a) == codec.checksum(b) ==> a == b
  }

  /** With a collision-free checksum one manifest accepts at most one set of chunk contents. */
  lemma ManifestPinsContents(a: VerifyInput, b: VerifyInput)
    requires a.manifest == b.manifest && a.codec == b.codec && CollisionFree(a.codec)
    requires Check(a) == [] && Check(b) == []
    ensures a.chunks == b.chunks
  {
    hide Check, ParseChunk, Covered, Distinct, AllLinked, RangeValid, Ids;
    NoIssuesIffValid(a);
    NoIssuesIffValid(b);
    forall n | n in a.chunks ensures n in b.chunks && a.chunks[n] == b.chunks[n] {
      var r :| r in a.manifest.chunks && r.seqNo == n;
      assert RecordValid(a, r) && RecordValid(b, r);
    }
  }
}
