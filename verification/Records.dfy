/**
 * The record codec: markdown with a fenced header of `key: value` lines, printed by one function
 * and read back by another that trusts nothing.
 */
module Records {
  import opened Common

  const SCHEMA_VERSION: int := 1

  // ---- characters and lines ----------------------------------------------------------

  /** What `.` does not match in a regular expression. */
  predicate LineBreak(c: char) {
    c == '\n' || c == '\r' || c == '\U{2028}' || c == '\U{2029}'
  }

  /** What `\s` matches. */
  predicate Space(c: char) {
    || c == ' ' || c == '\t' || c == '\U{0B}' || c == '\U{0C}' || c == '\U{A0}' || c == '\U{1680}'
    || '\U{2000}' <= c <= '\U{200A}' || c == '\U{202F}' || c == '\U{205F}' || c == '\U{3000}' || c == '\U{FEFF}'
    || LineBreak(c)
  }

  function TrimLeft(s: string): string {
    if s != "" && Space(s[0]) then TrimLeft(s[1..]) else s
  }

  /** Survives the reader unchanged: no line break of any kind, no leading space. */
  predicate Clean(s: string) {
    (forall c :: c in s ==> !LineBreak(c)) && (s != "" ==> !Space(s[0]))
  }

  function Split(text: string): (lines: seq<string>)
    ensures |lines| >= 1
  {
    if text == "" then [""]
    else
      var rest := Split(text[1..]);
      if text[0] == '\n' then [""] + rest else [[text[0]] + rest[0]] + rest[1..]
  }

  function Join(lines: seq<string>): string {
    if lines == [] then "" else if |lines| == 1 then lines[0] else lines[0] + "\n" + Join(lines[1..])
  }

  predicate StandsAt(text: string, pattern: string, i: nat) {
    i + |pattern| <= |text| && text[i..i + |pattern|] == pattern
  }

  /** The first place at or after `from` where `pattern` stands. */
  function Find(text: string, pattern: string, from: nat): (r: Option<nat>)
    ensures r.Some? ==> from <= r.value && StandsAt(text, pattern, r.value)
    decreases |text| - from
  {
    if from + |pattern| > |text| then None
    else if StandsAt(text, pattern, from) then Some(from)
    else Find(text, pattern, from + 1)
  }

  lemma {:induction false} FindFirst(text: string, pattern: string, from: nat, at: nat)
    requires from <= at && StandsAt(text, pattern, at)
    requires forall i :: from <= i < at ==> !StandsAt(text, pattern, i)
    ensures Find(text, pattern, from) == Some(at)
    decreases at - from
  {
    if from < at { FindFirst(text, pattern, from + 1, at); }
  }

  // ---- the header parser ---------------------------------------------------------------

  predicate KeyStart(c: char) {
    'A' <= c <= 'Z' || 'a' <= c <= 'z' || c == '_'
  }

  predicate KeyChar(c: char) {
    KeyStart(c) || '0' <= c <= '9' || c == '-'
  }

  predicate ValidKey(key: string) {
    key != "" && KeyStart(key[0]) && forall c :: c in key ==> KeyChar(c)
  }

  /** `key: value`, with the space after the colon dropped; no match when the value breaks a line. */
  function ParseLine(line: string): Option<(string, string)> {
    match Find(line, ":", 0)
    case None => None
    case Some(i) =>
      var key, value := line[..i], TrimLeft(line[i + 1..]);
      if ValidKey(key) && forall c :: c in value ==> !LineBreak(c) then Some((key, value)) else None
  }

  /** Later lines win. */
  function KeyValues(lines: seq<string>): map<string, string> {
    if lines == [] then map[]
    else
      var before := KeyValues(lines[..|lines| - 1]);
      match ParseLine(lines[|lines| - 1])
      case None => before
      case Some(kv) => before[kv.0 := kv.1]
  }

  method ParseKeyValueLines(text: string) returns (out: map<string, string>)
    ensures out == KeyValues(Split(text))
  {
    var lines := Split(text);
    out := map[];
    for i := 0 to |lines|
      invariant out == KeyValues(lines[..i])
    {
      assert lines[..i + 1][..i] == lines[..i];
      var m := ParseLine(lines[i]);
      if m.Some? { out := out[m.value.0 := m.value.1]; }
    }
    assert lines[..|lines|] == lines;
  }

  datatype Frontmatter = Frontmatter(fields: map<string, string>, body: string)

  /** The header ends at the first fence after the opening one; without one all is body. */
  function ParseFrontmatter(doc: string): Frontmatter {
    if |doc| < 4 || doc[..4] != "---\n" then Frontmatter(map[], doc)
    else
      match Find(doc, "\n---", 4)
      case None => Frontmatter(map[], doc)
      case Some(i) =>
        var rest := doc[i + 4..];
        Frontmatter(KeyValues(Split(doc[4..i])), if rest != "" && rest[0] == '\n' then rest[1..] else rest)
  }

  // ---- records ---------------------------------------------------------------------------

  datatype SourceRef = SourceRef(sessionId: string, branchId: Option<string>, entryIds: seq<string>)

  datatype Record = Record(
    schemaVersion: int,
    id: string,
    kind: string,
    scope: string,
    created: string,
    sources: seq<SourceRef>,
    model: Option<string>,
    status: string,
    to: Option<string>,
    from: Option<string>,
    channel: Option<string>,
    ttl: Option<string>,
    body: string)

  datatype ReadError = Malformed | FutureVersion | UnsupportedVersion

  datatype WriteError = WrongVersion | BrokenLine

  /** A JSON array item, as far as the reader looks at it; `None` is absent or of another type. */
  datatype RawSource =
    | NotAnObject
    | RawSource(sessionId: Option<string>, branchId: Option<string>, entryIds: Option<seq<Option<string>>>)

  /** What is outside this model: JSON text of the sources, `Number`, `Date.parse`, project names. */
  datatype Outside = Outside(
    printSources: seq<SourceRef> -> string,
    readSources: string -> Option<seq<RawSource>>,
    integer: string -> Option<int>,
    isDate: string -> bool,
    isProject: string -> bool)

  predicate KnownKind(kind: string) {
    kind in ["observation", "reflection", "proposal", "backup-chunk", "board-message"]
  }

  predicate KnownStatus(status: string) {
    status in ["active", "superseded", "pending-approval"]
  }

  predicate IdChar(c: char) {
    'a' <= c <= 'z' || '0' <= c <= '9'
  }

  predicate ValidId(id: string) {
    1 <= |id| <= 64 && IdChar(id[0]) && forall c :: c in id ==> IdChar(c) || c == '-'
  }

  predicate ProjectScope(scope: string) {
    |scope| >= 8 && scope[..8] == "project/"
  }

  predicate ValidScope(o: Outside, scope: string) {
    scope == "personal" || (ProjectScope(scope) && o.isProject(scope[8..]))
  }

  predicate RawSourceOk(s: RawSource) {
    && s.RawSource?
    && s.sessionId.Some? && s.sessionId.value != ""
    && s.entryIds.Some?
    && forall e :: e in s.entryIds.value ==> e.Some? && e.value != ""
  }

  function Entries(es: seq<Option<string>>): seq<string>
    requires forall e :: e in es ==> e.Some?
  {
    seq(|es|, i requires 0 <= i < |es| => es[i].value)
  }

  function SourceOf(s: RawSource): SourceRef
    requires RawSourceOk(s)
  {
    SourceRef(s.sessionId.value,
              if s.branchId.Some? && s.branchId.value != "" then s.branchId else None,
              Entries(s.entryIds.value))
  }

  function ReadSources(raw: seq<RawSource>): Option<seq<SourceRef>> {
    if forall s :: s in raw ==> RawSourceOk(s) then
      Some(seq(|raw|, i requires 0 <= i < |raw| && RawSourceOk(raw[i]) => SourceOf(raw[i])))
    else None
  }

  method ParseSourceRefs(o: Outside, text: string) returns (r: Option<seq<SourceRef>>)
    ensures r == if o.readSources(text).None? then None else ReadSources(o.readSources(text).value)
  {
    var parsed := o.readSources(text);
    if parsed.None? { return None; }
    var raw := parsed.value;
    var out := [];
    for i := 0 to |raw|
      invariant forall k :: 0 <= k < i ==> RawSourceOk(raw[k])
      invariant |out| == i && forall k :: 0 <= k < i ==> out[k] == SourceOf(raw[k])
    {
      if !RawSourceOk(raw[i]) {
        assert raw[i] in raw;
        return None;
      }
      out := out + [SourceOf(raw[i])];
    }
    assert out == ReadSources(raw).value;
    return Some(out);
  }

  function Get(fields: map<string, string>, key: string): Option<string> {
    if key in fields then Some(fields[key]) else None
  }

  predicate Given(v: Option<string>) {
    v.Some? && v.value != ""
  }

  function Or(v: Option<string>, d: string): string {
    if v.Some? then v.value else d
  }

  function ParseFields(o: Outside, fm: map<string, string>, body: string): Result<Record, ReadError> {
    var rawVersion := Get(fm, "schemaVersion");
    if rawVersion.None? then Err(Malformed)
    else
      var version := o.integer(rawVersion.value);
      if version.None? || version.value < 1 then Err(Malformed)
      else if version.value > SCHEMA_VERSION then Err(FutureVersion)
      else if version.value != SCHEMA_VERSION then Err(UnsupportedVersion)
      else
        var id, kind, scope, created, status, rawSources :=
          Get(fm, "id"), Get(fm, "type"), Get(fm, "scope"), Get(fm, "created"), Get(fm, "status"), Get(fm, "sources");
        if !(Given(id) && Given(kind) && Given(scope) && Given(created) && Given(status) && Given(rawSources)) then Err(Malformed)
        else if !KnownKind(kind.value) || !KnownStatus(status.value) then Err(Malformed)
        else if !ValidScope(o, scope.value) || !ValidId(id.value) || !o.isDate(created.value) then Err(Malformed)
        else if o.readSources(rawSources.value).None? then Err(Malformed)
        else
          match ReadSources(o.readSources(rawSources.value).value)
          case None => Err(Malformed)
          case Some(sources) =>
            var board := kind.value == "board-message";
            Ok(Record(version.value, id.value, kind.value, scope.value, created.value, sources, Get(fm, "model"), status.value,
                      if board then Some(Or(Get(fm, "to"), "")) else None,
                      if board then Some(Or(Get(fm, "from"), "")) else None,
                      if board then Some(Or(Get(fm, "channel"), "")) else None,
                      if board then Some(Or(Get(fm, "ttl"), "")) else None,
                      body))
  }

  function Parse(o: Outside, doc: string): Result<Record, ReadError> {
    var f := ParseFrontmatter(doc);
    ParseFields(o, f.fields, f.body)
  }

  // ---- the printer ---------------------------------------------------------------------------

  datatype Key = VersionKey | IdKey | KindKey | ScopeKey | CreatedKey | SourcesKey | ModelKey | StatusKey
               | ToKey | FromKey | ChannelKey | TtlKey

  function Text(k: Key): string {
    match k
    case VersionKey => "schemaVersion"
    case IdKey => "id"
    case KindKey => "type"
    case ScopeKey => "scope"
    case CreatedKey => "created"
    case SourcesKey => "sources"
    case ModelKey => "model"
    case StatusKey => "status"
    case ToKey => "to"
    case FromKey => "from"
    case ChannelKey => "channel"
    case TtlKey => "ttl"
  }

  datatype Field = Field(key: Key, value: string)

  function Header(o: Outside, r: Record): seq<Field> {
    FixedFields(o, r) + ModelField(r) + [Field(StatusKey, r.status)] + BoardFields(r)
  }

  function FixedFields(o: Outside, r: Record): seq<Field> {
    [Field(VersionKey, "1"), Field(IdKey, r.id), Field(KindKey, r.kind), Field(ScopeKey, r.scope),
     Field(CreatedKey, r.created), Field(SourcesKey, o.printSources(r.sources))]
  }

  function ModelField(r: Record): seq<Field> {
    if r.model.Some? then [Field(ModelKey, r.model.value)] else []
  }

  function BoardFields(r: Record): seq<Field> {
    if r.kind == "board-message"
    then [Field(ToKey, Or(r.to, "")), Field(FromKey, Or(r.from, "")),
          Field(ChannelKey, Or(r.channel, "")), Field(TtlKey, Or(r.ttl, ""))]
    else []
  }

  predicate OneLine(s: string) {
    forall c :: c in s ==> c != '\n' && c != '\r'
  }

  function FmLine(f: Field): string {
    Text(f.key) + ": " + f.value
  }

  function FmLines(fields: seq<Field>): (lines: seq<string>)
    ensures |lines| == |fields|
    ensures forall i :: 0 <= i < |fields| ==> lines[i] == FmLine(fields[i])
  {
    seq(|fields|, i requires 0 <= i < |fields| => FmLine(fields[i]))
  }

  function Fenced(fields: seq<Field>, body: string): string {
    "---\n" + Join(FmLines(fields)) + "\n---\n" + body
  }

  function Serialize(o: Outside, r: Record): Result<string, WriteError> {
    if r.schemaVersion != SCHEMA_VERSION then Err(WrongVersion)
    else if exists f :: f in Header(o, r) && !OneLine(f.value) then Err(BrokenLine)
    else Ok(Fenced(Header(o, r), r.body))
  }

  // ---- reading back what was printed ------------------------------------------------------------

  lemma TextInjective(a: Key, b: Key)
    requires Text(a) == Text(b)
    ensures a == b
  {
    assert |Text(a)| == |Text(b)| && Text(a)[0] == Text(b)[0];
  }

  lemma TextValid(k: Key)
    ensures ValidKey(Text(k)) && forall c :: c in Text(k) ==> c != ':' && c != '\n'
  {
  }

  /** The value a printed line is read back as, if it is read back at all. */
  function Stored(v: string): Option<string> {
    var t := TrimLeft(v);
    if forall c :: c in t ==> !LineBreak(c) then Some(t) else None
  }

  lemma {:induction false} TrimIsSuffix(s: string)
    ensures |TrimLeft(s)| <= |s| && TrimLeft(s) == s[|s| - |TrimLeft(s)|..]
    ensures TrimLeft(s) != "" ==> !Space(TrimLeft(s)[0])
    decreases |s|
  {
    if s != "" && Space(s[0]) { TrimIsSuffix(s[1..]); }
  }

  /** A value comes back as it was exactly when it is clean. */
  lemma StoredIff(v: string)
    ensures Stored(v) == Some(v) <==> Clean(v)
  {
    TrimIsSuffix(v);
  }

  lemma LineReadsBack(f: Field)
    ensures ParseLine(FmLine(f)) == if Stored(f.value).Some? then Some((Text(f.key), Stored(f.value).value)) else None
  {
    hide TrimLeft, Find, Text, ValidKey, LineBreak;
    var key := Text(f.key);
    TextValid(f.key);
    ColonFound(key, " " + f.value);
    LineParts(key, f.value);
    BlankIsTrimmed(f.value);
  }

  lemma LineParts(key: string, value: string)
    ensures var line := key + ": " + value;
            line == key + ":" + (" " + value) && line[..|key|] == key && line[|key| + 1..] == " " + value
  {
  }

  lemma BlankIsTrimmed(value: string)
    ensures TrimLeft(" " + value) == TrimLeft(value)
  {
    assert (" " + value)[1..] == value;
  }

  lemma ColonFound(key: string, rest: string)
    requires forall c :: c in key ==> c != ':'
    ensures Find(key + ":" + rest, ":", 0) == Some(|key|)
  {
    var line := key + ":" + rest;
    forall i | 0 <= i < |key| ensures !StandsAt(line, ":", i) {
      assert line[i..i + 1][0] == key[i] && key[i] in key;
    }
    FindFirst(line, ":", 0, |key|);
  }

  ghost predicate DistinctKeys(fields: seq<Field>) {
    forall i, j :: 0 <= i < j < |fields| ==> fields[i].key != fields[j].key
  }

  /** What a printed header is read back as, key by key. */
  function ReadKey(fields: seq<Field>, k: Key): Option<string> {
    Get(KeyValues(FmLines(fields)), Text(k))
  }

  lemma ReadKeyStep(fields: seq<Field>, f: Field, k: Key)
    ensures ReadKey(fields + [f], k) == if f.key == k && Stored(f.value).Some? then Stored(f.value) else ReadKey(fields, k)
  {
    FmLinesPush(fields, f);
    hide Text, FmLine, FmLines, Stored, ParseLine, KeyValues;
    KeyValuesPush(FmLines(fields), FmLine(f));
    LineReadsBack(f);
    if Text(f.key) == Text(k) { TextInjective(f.key, k); }
  }

  lemma FmLinesPush(fields: seq<Field>, f: Field)
    ensures FmLines(fields + [f]) == FmLines(fields) + [FmLine(f)]
  {
    hide FmLine;
  }

  lemma KeyValuesPush(lines: seq<string>, line: string)
    ensures KeyValues(lines + [line]) ==
            match ParseLine(line) case None => KeyValues(lines) case Some(kv) => KeyValues(lines)[kv.0 := kv.1]
  {
    assert (lines + [line])[..|lines|] == lines;
    hide ParseLine;
  }

  lemma {:induction false} FieldReadsBack(fields: seq<Field>, i: nat, f: Field)
    requires DistinctKeys(fields) && i < |fields| && fields[i] == f
    ensures ReadKey(fields, f.key) == Stored(f.value)
    decreases |fields|
  {
    hide ReadKey, Stored;
    var init, last := fields[..|fields| - 1], fields[|fields| - 1];
    assert fields == init + [last];
    ReadKeyStep(init, last, f.key);
    if i < |init| {
      FieldReadsBack(init, i, f);
    } else {
      AbsentKey(init, f.key);
    }
  }

  lemma {:induction false} AbsentKey(fields: seq<Field>, k: Key)
    requires forall i :: 0 <= i < |fields| ==> fields[i].key != k
    ensures ReadKey(fields, k) == None
    decreases |fields|
  {
    if fields != [] {
      hide ReadKey;
      var init, last := fields[..|fields| - 1], fields[|fields| - 1];
      assert fields == init + [last];
      ReadKeyStep(init, last, k);
      AbsentKey(init, k);
    }
  }

  lemma {:induction false} SplitLine(line: string)
    requires forall c :: c in line ==> c != '\n'
    ensures Split(line) == [line]
  {
    if line != "" {
      assert line[0] in line && forall c :: c in line[1..] ==> c in line;
      SplitLine(line[1..]);
      assert [line[0]] + line[1..] == line;
    }
  }

  lemma {:induction false} SplitFirst(line: string, rest: string)
    requires forall c :: c in line ==> c != '\n'
    ensures Split(line + "\n" + rest) == [line] + Split(rest)
  {
    if line == "" {
      assert (line + "\n" + rest)[1..] == rest;
    } else {
      assert line[0] in line && forall c :: c in line[1..] ==> c in line;
      SplitFirst(line[1..], rest);
      var whole := line + "\n" + rest;
      assert whole[1..] == line[1..] + "\n" + rest && whole[0] == line[0];
      assert Split(whole) == [[line[0]] + line[1..]] + Split(rest);
      assert [line[0]] + line[1..] == line;
    }
  }

  lemma {:induction false} SplitJoin(lines: seq<string>)
    requires lines != [] && forall l :: l in lines ==> forall c :: c in l ==> c != '\n'
    ensures Split(Join(lines)) == lines
  {
    assert lines[0] in lines;
    if |lines| == 1 {
      SplitLine(lines[0]);
    } else {
      assert forall l :: l in lines[1..] ==> l in lines;
      SplitJoin(lines[1..]);
      SplitFirst(lines[0], Join(lines[1..]));
    }
  }

  /** No fence can start inside the header: every line starts with a letter. */
  ghost predicate NoFence(header: string) {
    forall i :: 0 <= i < |header| && header[i] == '\n' ==> i + 1 < |header| && header[i + 1] != '-'
  }

  lemma {:induction false} JoinHasNoFence(lines: seq<string>)
    requires forall l :: l in lines ==> l != "" && l[0] != '-' && forall c :: c in l ==> c != '\n'
    ensures NoFence(Join(lines))
    ensures lines != [] ==> lines[0] != "" && Join(lines) != "" && Join(lines)[0] == lines[0][0]
  {
    if lines != [] {
      assert lines[0] in lines;
      forall i | 0 <= i < |lines[0]| ensures lines[0][i] != '\n' {
        assert lines[0][i] in lines[0];
      }
      if |lines| > 1 {
        assert forall l :: l in lines[1..] ==> l in lines;
        JoinHasNoFence(lines[1..]);
        assert lines[1] in lines;
        var head, rest := lines[0], Join(lines[1..]);
        forall i | 0 <= i < |head + "\n" + rest| && (head + "\n" + rest)[i] == '\n'
          ensures i + 1 < |head + "\n" + rest| && (head + "\n" + rest)[i + 1] != '-'
        {
          if i > |head| {
            assert rest[i - |head| - 1] == '\n';
          }
        }
        assert Join(lines) == head + "\n" + rest;
      }
    }
  }

  lemma LinesAreLines(fields: seq<Field>)
    requires forall f :: f in fields ==> OneLine(f.value)
    ensures forall l :: l in FmLines(fields) ==> l != "" && l[0] != '-' && forall c :: c in l ==> c != '\n'
  {
    forall l | l in FmLines(fields) ensures l != "" && l[0] != '-' && forall c :: c in l ==> c != '\n' {
      var i :| 0 <= i < |fields| && FmLines(fields)[i] == l;
      assert fields[i] in fields;
      TextValid(fields[i].key);
    }
  }

  /** Any body at all comes back unchanged, and the header comes back line by line. */
  lemma FencedReadsBack(fields: seq<Field>, body: string)
    requires fields != [] && forall f :: f in fields ==> OneLine(f.value)
    ensures ParseFrontmatter(Fenced(fields, body)) == Frontmatter(KeyValues(FmLines(fields)), body)
  {
    var lines := FmLines(fields);
    LinesAreLines(fields);
    SplitJoin(lines);
    JoinHasNoFence(lines);
    hide Split, Join, KeyValues, FmLines, Find, NoFence, ParseFrontmatter;
    HeaderAndBody(Join(lines), body);
  }

  lemma HeaderAndBody(header: string, body: string)
    requires NoFence(header)
    ensures ParseFrontmatter("---\n" + header + "\n---\n" + body) == Frontmatter(KeyValues(Split(header)), body)
  {
    hide Split, KeyValues, Find, NoFence;
    FenceFound(header, body);
    var doc := "---\n" + header + "\n---\n" + body;
    var at := 4 + |header|;
    assert doc[4..at] == header;
    assert doc[at + 4..] == "\n" + body;
    assert ("\n" + body)[1..] == body;
  }

  lemma FenceFound(header: string, body: string)
    requires NoFence(header)
    ensures var doc := "---\n" + header + "\n---\n" + body;
            doc[..4] == "---\n" && Find(doc, "\n---", 4) == Some(4 + |header|)
  {
    var doc := "---\n" + header + "\n---\n" + body;
    var at := 4 + |header|;
    assert doc[at..at + 4] == "\n---";
    forall i | 4 <= i < at ensures !StandsAt(doc, "\n---", i) {
      var here := doc[i..i + 4];
      assert here[0] == doc[i] == header[i - 4] && here[1] == doc[i + 1];
      assert header[i - 4] == '\n' ==> doc[i + 1] == header[i - 3];
    }
    FindFirst(doc, "\n---", 4, at);
  }

  // ---- when a record round-trips --------------------------------------------------------------------

  function RawSourceFor(s: SourceRef): RawSource {
    RawSource(Some(s.sessionId), s.branchId, Some(seq(|s.entryIds|, i requires 0 <= i < |s.entryIds| => Some(s.entryIds[i]))))
  }

  function RawSourcesFor(ss: seq<SourceRef>): seq<RawSource> {
    seq(|ss|, i requires 0 <= i < |ss| => RawSourceFor(ss[i]))
  }

  /** JSON is lossless and prints on one line, starting with its bracket; `Number("1")` is 1. */
  ghost predicate Faithful(o: Outside) {
    && o.integer("1") == Some(1)
    && forall ss :: var t := o.printSources(ss); OneLine(t) && t != "" && t[0] == '[' && o.readSources(t) == Some(RawSourcesFor(ss))
  }

  predicate SourceOk(s: SourceRef) {
    s.sessionId != "" && (s.branchId.Some? ==> s.branchId.value != "") && forall e :: e in s.entryIds ==> e != ""
  }

  predicate BoardFieldOk(r: Record, v: Option<string>) {
    if r.kind == "board-message" then v.Some? && Clean(v.value) else v.None?
  }

  /** What a caller can check before writing: identity, owner, date, sources, and clean values. */
  predicate Storable(o: Outside, r: Record) {
    && ValidId(r.id) && KnownKind(r.kind) && KnownStatus(r.status) && ValidScope(o, r.scope)
    && r.created != "" && o.isDate(r.created)
    && Clean(r.scope) && Clean(r.created) && Clean(o.printSources(r.sources))
    && (r.model.Some? ==> Clean(r.model.value))
    && (forall s :: s in r.sources ==> SourceOk(s))
    && BoardFieldOk(r, r.to) && BoardFieldOk(r, r.from) && BoardFieldOk(r, r.channel) && BoardFieldOk(r, r.ttl)
  }

  lemma SourcesReadBackIff(ss: seq<SourceRef>)
    ensures ReadSources(RawSourcesFor(ss)) == Some(ss) <==> forall s :: s in ss ==> SourceOk(s)
  {
    var raw := RawSourcesFor(ss);
    if forall s :: s in ss ==> SourceOk(s) {
      forall s | s in raw ensures RawSourceOk(s) {
        var i :| 0 <= i < |raw| && raw[i] == s;
        assert ss[i] in ss;
        forall e | e in s.entryIds.value ensures e.Some? && e.value != "" {
          var k :| 0 <= k < |s.entryIds.value| && s.entryIds.value[k] == e;
          assert ss[i].entryIds[k] in ss[i].entryIds;
        }
      }
      var back := ReadSources(raw).value;
      forall i | 0 <= i < |ss| ensures back[i] == ss[i] {
        assert ss[i] in ss && raw[i] in raw;
        assert back[i].entryIds == ss[i].entryIds;
      }
      assert back == ss;
    } else if ReadSources(raw) == Some(ss) {
      forall s | s in ss ensures SourceOk(s) {
        var i :| 0 <= i < |ss| && ss[i] == s;
        assert raw[i] in raw;
        forall e | e in s.entryIds ensures e != "" {
          var k :| 0 <= k < |s.entryIds| && s.entryIds[k] == e;
          assert raw[i].entryIds.value[k] in raw[i].entryIds.value;
        }
        assert ReadSources(raw).value[i] == SourceOf(raw[i]);
      }
      assert false;
    }
  }

  function Rank(k: Key): nat {
    match k
    case VersionKey => 0
    case IdKey => 1
    case KindKey => 2
    case ScopeKey => 3
    case CreatedKey => 4
    case SourcesKey => 5
    case ModelKey => 6
    case StatusKey => 7
    case ToKey => 8
    case FromKey => 9
    case ChannelKey => 10
    case TtlKey => 11
  }

  lemma {:induction false} RankedAfter(fields: seq<Field>, i: nat, j: nat)
    requires Rising(fields)
    requires i < j < |fields|
    ensures Rank(fields[i].key) < Rank(fields[j].key)
    decreases j
  {
    if i < j - 1 { RankedAfter(fields, i, j - 1); }
  }

  ghost predicate Rising(fields: seq<Field>) {
    forall k :: 0 <= k < |fields| - 1 ==> Rank(fields[k].key) < Rank(fields[k + 1].key)
  }

  lemma RisingConcat(a: seq<Field>, b: seq<Field>)
    requires Rising(a) && Rising(b)
    requires a != [] && b != [] ==> Rank(a[|a| - 1].key) < Rank(b[0].key)
    ensures Rising(a + b)
  {
  }

  lemma HeaderKeysDistinct(o: Outside, r: Record)
    ensures DistinctKeys(Header(o, r))
  {
    hide Rising, FixedFields, ModelField, BoardFields;
    var status := [Field(StatusKey, r.status)];
    PartsRise(o, r);
    RisingConcat(FixedFields(o, r), ModelField(r));
    RisingConcat(FixedFields(o, r) + ModelField(r), status);
    RisingConcat(FixedFields(o, r) + ModelField(r) + status, BoardFields(r));
    RisingIsDistinct(Header(o, r));
  }

  lemma PartsRise(o: Outside, r: Record)
    ensures Rising(FixedFields(o, r)) && Rising(ModelField(r)) && Rising([Field(StatusKey, r.status)]) && Rising(BoardFields(r))
    ensures |FixedFields(o, r)| == 6 && Rank(FixedFields(o, r)[5].key) == 5
    ensures ModelField(r) != [] ==> |ModelField(r)| == 1 && Rank(ModelField(r)[0].key) == 6
    ensures BoardFields(r) != [] ==> Rank(BoardFields(r)[0].key) == 8
  {
  }

  lemma RisingIsDistinct(fields: seq<Field>)
    requires Rising(fields)
    ensures DistinctKeys(fields)
  {
    hide Rising;
    forall i, j | 0 <= i < j < |fields| ensures fields[i].key != fields[j].key {
      RankedAfter(fields, i, j);
    }
  }

  /** What each key of a printed header is read back as. */
  ghost predicate RequiredRead(o: Outside, r: Record, fm: map<string, string>) {
    && Get(fm, "schemaVersion") == Stored("1")
    && Get(fm, "id") == Stored(r.id) && Get(fm, "type") == Stored(r.kind) && Get(fm, "scope") == Stored(r.scope)
    && Get(fm, "created") == Stored(r.created) && Get(fm, "sources") == Stored(o.printSources(r.sources))
    && Get(fm, "status") == Stored(r.status)
  }

  ghost predicate OptionalRead(r: Record, fm: map<string, string>) {
    && Get(fm, "model") == (if r.model.Some? then Stored(r.model.value) else None)
    && (r.kind == "board-message" ==>
          && Get(fm, "to") == Stored(Or(r.to, "")) && Get(fm, "from") == Stored(Or(r.from, ""))
          && Get(fm, "channel") == Stored(Or(r.channel, "")) && Get(fm, "ttl") == Stored(Or(r.ttl, "")))
  }

  lemma RequiredReadsBack(o: Outside, r: Record)
    ensures RequiredRead(o, r, KeyValues(FmLines(Header(o, r))))
  {
    hide KeyValues, FmLines, Stored, Header;
    KeysReadBack(o, r);
  }

  lemma KeysReadBack(o: Outside, r: Record)
    ensures var h := Header(o, r);
            && ReadKey(h, VersionKey) == Stored("1") && ReadKey(h, IdKey) == Stored(r.id) && ReadKey(h, KindKey) == Stored(r.kind)
            && ReadKey(h, ScopeKey) == Stored(r.scope) && ReadKey(h, CreatedKey) == Stored(r.created)
            && ReadKey(h, SourcesKey) == Stored(o.printSources(r.sources)) && ReadKey(h, StatusKey) == Stored(r.status)
  {
    hide ReadKey, Stored, DistinctKeys;
    var h := Header(o, r);
    HeaderKeysDistinct(o, r);
    FieldReadsBack(h, 0, Field(VersionKey, "1"));
    FieldReadsBack(h, 1, Field(IdKey, r.id));
    FieldReadsBack(h, 2, Field(KindKey, r.kind));
    FieldReadsBack(h, 3, Field(ScopeKey, r.scope));
    FieldReadsBack(h, 4, Field(CreatedKey, r.created));
    FieldReadsBack(h, 5, Field(SourcesKey, o.printSources(r.sources)));
    FieldReadsBack(h, 6 + (if r.model.Some? then 1 else 0), Field(StatusKey, r.status));
  }

  lemma OptionalReadsBack(o: Outside, r: Record)
    ensures OptionalRead(r, KeyValues(FmLines(Header(o, r))))
  {
    hide KeyValues, FmLines, Stored, DistinctKeys;
    var h := Header(o, r);
    HeaderKeysDistinct(o, r);
    ModelReadsBack(o, r);
    if r.kind == "board-message" { BoardReadsBack(o, r); }
    hide Header;
  }

  lemma ModelReadsBack(o: Outside, r: Record)
    ensures ReadKey(Header(o, r), ModelKey) == if r.model.Some? then Stored(r.model.value) else None
  {
    hide ReadKey, Stored, DistinctKeys;
    var h := Header(o, r);
    HeaderKeysDistinct(o, r);
    if r.model.Some? {
      FieldReadsBack(h, 6, Field(ModelKey, r.model.value));
    } else {
      AbsentKey(h, ModelKey);
    }
  }

  lemma BoardReadsBack(o: Outside, r: Record)
    requires r.kind == "board-message"
    ensures var h := Header(o, r);
            && ReadKey(h, ToKey) == Stored(Or(r.to, "")) && ReadKey(h, FromKey) == Stored(Or(r.from, ""))
            && ReadKey(h, ChannelKey) == Stored(Or(r.channel, "")) && ReadKey(h, TtlKey) == Stored(Or(r.ttl, ""))
  {
    hide ReadKey, Stored, DistinctKeys;
    var h := Header(o, r);
    HeaderKeysDistinct(o, r);
    var at := if r.model.Some? then 8 else 7;
    FieldReadsBack(h, at, Field(ToKey, Or(r.to, "")));
    FieldReadsBack(h, at + 1, Field(FromKey, Or(r.from, "")));
    FieldReadsBack(h, at + 2, Field(ChannelKey, Or(r.channel, "")));
    FieldReadsBack(h, at + 3, Field(TtlKey, Or(r.ttl, "")));
  }

  predicate Plain(s: string) {
    s != "" && forall c :: c in s ==> IdChar(c) || c == '-'
  }

  lemma PlainIsClean(s: string)
    requires Plain(s)
    ensures Clean(s) && s != ""
  {
    assert s[0] in s;
  }

  lemma ConstantsAreClean(s: string)
    requires KnownKind(s) || KnownStatus(s) || ValidId(s) || s == "1"
    ensures Clean(s) && s != ""
  {
    hide KnownKind, KnownStatus, ValidId, Plain, Clean;
    if KnownKind(s) { KindIsPlain(s); }
    if KnownStatus(s) { StatusIsPlain(s); }
    if ValidId(s) || s == "1" { IdIsPlain(s); }
    PlainIsClean(s);
  }

  lemma KindIsPlain(s: string)
    requires KnownKind(s)
    ensures Plain(s)
  {
  }

  lemma StatusIsPlain(s: string)
    requires KnownStatus(s)
    ensures Plain(s)
  {
  }

  lemma IdIsPlain(s: string)
    requires ValidId(s) || s == "1"
    ensures Plain(s)
  {
  }

  /**
   * The codec law, exactly: a record that can be written reads back as itself, with any body,
   * if and only if it is storable.
   */
  lemma RoundTripIff(o: Outside, r: Record)
    requires Faithful(o) && Serialize(o, r).Ok?
    ensures Parse(o, Serialize(o, r).value) == Ok(r) <==> Storable(o, r)
  {
    var h := Header(o, r);
    FencedReadsBack(h, r.body);
    RequiredReadsBack(o, r);
    OptionalReadsBack(o, r);
    FieldsIff(o, r, KeyValues(FmLines(h)));
    hide Fenced, Header, KeyValues, FmLines, ParseFields, Storable, RequiredRead, OptionalRead;
  }

  ghost predicate Read(o: Outside, fm: map<string, string>, r: Record) {
    && Get(fm, "schemaVersion").Some? && o.integer(Get(fm, "schemaVersion").value) == Some(r.schemaVersion)
    && r.schemaVersion == SCHEMA_VERSION
    && Get(fm, "id") == Some(r.id) && Get(fm, "type") == Some(r.kind) && Get(fm, "scope") == Some(r.scope)
    && Get(fm, "created") == Some(r.created) && Get(fm, "status") == Some(r.status)
    && ValidId(r.id) && KnownKind(r.kind) && KnownStatus(r.status) && ValidScope(o, r.scope)
    && r.created != "" && o.isDate(r.created)
    && Get(fm, "sources").Some? && Get(fm, "sources").value != ""
    && o.readSources(Get(fm, "sources").value).Some?
    && ReadSources(o.readSources(Get(fm, "sources").value).value) == Some(r.sources)
    && Get(fm, "model") == r.model
    && (if r.kind == "board-message" then
          && r.to == Some(Or(Get(fm, "to"), "")) && r.from == Some(Or(Get(fm, "from"), ""))
          && r.channel == Some(Or(Get(fm, "channel"), "")) && r.ttl == Some(Or(Get(fm, "ttl"), ""))
        else r.to.None? && r.from.None? && r.channel.None? && r.ttl.None?)
  }

  /** Everything the reader accepts, and what it makes of it. */
  lemma ParseFieldsIff(o: Outside, fm: map<string, string>, r: Record)
    ensures ParseFields(o, fm, r.body) == Ok(r) <==> Read(o, fm, r)
  {
    if KnownKind(r.kind) { ConstantsAreClean(r.kind); }
    if KnownStatus(r.status) { ConstantsAreClean(r.status); }
    hide Clean, KnownKind, KnownStatus, ReadSources, Get;
  }

  lemma FieldsIff(o: Outside, r: Record, fm: map<string, string>)
    requires Faithful(o) && r.schemaVersion == SCHEMA_VERSION && RequiredRead(o, r, fm) && OptionalRead(r, fm)
    ensures ParseFields(o, fm, r.body) == Ok(r) <==> Storable(o, r)
  {
    ParseFieldsIff(o, fm, r);
    RequiredIff(o, r, fm);
    OptionalIff(r, fm);
    hide ParseFields, Get, Stored, Clean, SourceOk, ReadSources, ValidId, KnownStatus, KnownKind, RawSourcesFor;
  }

  lemma RequiredIff(o: Outside, r: Record, fm: map<string, string>)
    requires Faithful(o) && RequiredRead(o, r, fm)
    ensures Get(fm, "schemaVersion") == Some("1")
    ensures ValidId(r.id) ==> Get(fm, "id") == Some(r.id)
    ensures KnownKind(r.kind) ==> Get(fm, "type") == Some(r.kind)
    ensures KnownStatus(r.status) ==> Get(fm, "status") == Some(r.status)
    ensures Get(fm, "scope") == Some(r.scope) <==> Clean(r.scope)
    ensures Get(fm, "created") == Some(r.created) <==> Clean(r.created)
    ensures Get(fm, "sources").Some? && Get(fm, "sources").value != "" && o.readSources(Get(fm, "sources").value).Some?
            && ReadSources(o.readSources(Get(fm, "sources").value).value) == Some(r.sources)
            <==> Clean(o.printSources(r.sources)) && forall s :: s in r.sources ==> SourceOk(s)
  {
    ConstantsAreClean("1");
    if ValidId(r.id) { ConstantsAreClean(r.id); }
    if KnownKind(r.kind) { ConstantsAreClean(r.kind); }
    if KnownStatus(r.status) { ConstantsAreClean(r.status); }
    StoredIff("1");
    StoredIff(r.id);
    StoredIff(r.kind);
    StoredIff(r.scope);
    StoredIff(r.created);
    StoredIff(r.status);
    StoredIff(o.printSources(r.sources));
    SourcesReadBackIff(r.sources);
    hide Stored, Clean, SourceOk, ReadSources, ValidId, KnownStatus, KnownKind, RawSourcesFor;
  }

  lemma OptionalIff(r: Record, fm: map<string, string>)
    requires OptionalRead(r, fm)
    ensures Get(fm, "model") == r.model <==> (r.model.Some? ==> Clean(r.model.value))
    ensures r.kind == "board-message" ==>
              ((&& r.to == Some(Or(Get(fm, "to"), "")) && r.from == Some(Or(Get(fm, "from"), ""))
                && r.channel == Some(Or(Get(fm, "channel"), "")) && r.ttl == Some(Or(Get(fm, "ttl"), "")))
               <==> (BoardFieldOk(r, r.to) && BoardFieldOk(r, r.from) && BoardFieldOk(r, r.channel) && BoardFieldOk(r, r.ttl)))
  {
    if r.model.Some? { StoredIff(r.model.value); }
    OrIff(r.to);
    OrIff(r.from);
    OrIff(r.channel);
    OrIff(r.ttl);
    hide Stored, Clean;
  }

  /** A missing line reads as empty, which is what an empty value prints as. */
  lemma OrIff(v: Option<string>)
    ensures v == Some(Or(Stored(Or(v, "")), "")) <==> v.Some? && Clean(v.value)
  {
    StoredIff(Or(v, ""));
    TrimIsSuffix(Or(v, ""));
  }
}
