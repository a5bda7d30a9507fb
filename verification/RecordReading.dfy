/**
 * What the record reader accepts, whoever wrote it: lines, headers and fences said of the text alone, the
 * error of each kind of document, and when the printer refuses.
 */
module RecordReading {
  import opened Common
  import opened Records

  // ---- characters -------------------------------------------------------------------------------------

  // By their code points, in ASCII.
  predicate Digit(c: char) {
    48 <= c as int <= 57
  }

  predicate Lower(c: char) {
    97 <= c as int <= 122 || Digit(c)
  }

  predicate Letter(c: char) {
    65 <= c as int <= 90 || 97 <= c as int <= 122 || c as int == 95
  }

  const BLANKS: string :=
    " \t\n\r\U{0B}\U{0C}\U{A0}\U{1680}\U{2000}\U{2001}\U{2002}\U{2003}\U{2004}\U{2005}\U{2006}\U{2007}\U{2008}\U{2009}\U{200A}\U{2028}\U{2029}\U{202F}\U{205F}\U{3000}\U{FEFF}"

  lemma BlankIff(c: char)
    ensures Space(c) <==> c in BLANKS
  {
    assert BLANKS[0] == ' ' && BLANKS[1] == '\t' && BLANKS[2] == '\n' && BLANKS[3] == '\r' && BLANKS[4] == '\U{0B}';
    assert BLANKS[5] == '\U{0C}' && BLANKS[6] == '\U{A0}' && BLANKS[7] == '\U{1680}' && BLANKS[19] == '\U{2028}';
    assert BLANKS[20] == '\U{2029}' && BLANKS[21] == '\U{202F}' && BLANKS[22] == '\U{205F}' && BLANKS[23] == '\U{3000}' && BLANKS[24] == '\U{FEFF}';
    if '\U{2000}' <= c <= '\U{200A}' { assert BLANKS[8 + (c as int - 0x2000)] == c; }
  }

  /** An id is one to sixty-four lower-case letters, digits and dashes, and begins with no dash. */
  lemma IdIff(id: string)
    ensures ValidId(id) <==> 1 <= |id| <= 64 && Lower(id[0]) && forall c :: c in id ==> Lower(c) || c == '-'
  {
  }

  // ---- one line --------------------------------------------------------------------------------------------

  ghost predicate KeyShape(key: string) {
    key != "" && Letter(key[0]) && forall c :: c in key ==> Letter(c) || Digit(c) || c == '-'
  }

  lemma KeyShapeIff(key: string)
    ensures ValidKey(key) <==> KeyShape(key)
  {
  }

  /** The line is a key, a colon, white space and a value that begins with none and holds no line break. */
  ghost predicate LineIs(line: string, key: string, blank: string, value: string) {
    && line == key + ":" + blank + value
    && KeyShape(key) && (forall c :: c in blank ==> c in BLANKS)
    && (value != "" ==> value[0] !in BLANKS) && forall c :: c in value ==> c !in "\n\r\U{2028}\U{2029}"
  }

  lemma {:induction false} TrimSplits(s: string) returns (blank: string)
    ensures s == blank + TrimLeft(s) && forall c :: c in blank ==> Space(c)
    ensures TrimLeft(s) != "" ==> !Space(TrimLeft(s)[0])
  {
    blank := "";
    if s != "" && Space(s[0]) {
      var rest := TrimSplits(s[1..]);
      blank := [s[0]] + rest;
      assert s == [s[0]] + s[1..];
    }
    hide Space;
  }

  lemma {:induction false} TrimTrims(blank: string, value: string)
    requires (forall c :: c in blank ==> Space(c)) && (value != "" ==> !Space(value[0]))
    ensures TrimLeft(blank + value) == value
  {
    hide Space;
    if blank == "" {
      assert blank + value == value;
    } else {
      assert (blank + value)[0] == blank[0] && (blank + value)[1..] == blank[1..] + value;
      TrimTrims(blank[1..], value);
    }
  }

  lemma BreakIff(c: char)
    ensures LineBreak(c) <==> c in "\n\r\U{2028}\U{2029}"
  {
    var breaks := "\n\r\U{2028}\U{2029}";
    assert breaks[0] == '\n' && breaks[1] == '\r' && breaks[2] == '\U{2028}' && breaks[3] == '\U{2029}';
  }

  /** A line is read as a key and a value exactly when it has that shape; every other line is passed over. */
  lemma LineReadsIff(line: string, key: string, value: string)
    ensures ParseLine(line) == Some((key, value)) <==> exists blank :: LineIs(line, key, blank, value)
  {
    hide Space, LineBreak, TrimLeft, KeyShape, ValidKey;
    forall c: char ensures Space(c) <==> c in BLANKS { BlankIff(c); }
    forall c: char ensures LineBreak(c) <==> c in "\n\r\U{2028}\U{2029}" { BreakIff(c); }
    KeyShapeIff(key);
    if ParseLine(line) == Some((key, value)) {
      var i := Find(line, ":", 0).value;
      var blank := TrimSplits(line[i + 1..]);
      assert line == line[..i] + ":" + line[i + 1..];
      assert line == key + ":" + blank + value;
      assert LineIs(line, key, blank, value);
    }
    if blank :| LineIs(line, key, blank, value) {
      ShapedLineReads(line, key, blank, value);
    }
  }

  lemma ShapedLineReads(line: string, key: string, blank: string, value: string)
    requires line == key + ":" + blank + value && ValidKey(key)
    requires (forall c :: c in blank ==> Space(c)) && (value != "" ==> !Space(value[0])) && forall c :: c in value ==> !LineBreak(c)
    ensures ParseLine(line) == Some((key, value))
  {
    hide Space, LineBreak, TrimLeft;
    assert line == key + (":" + (blank + value));
    NoColonIn(key);
    hide ValidKey;
    forall i | 0 <= i < |key| ensures !StandsAt(line, ":", i) {
      assert line[i] == key[i] && key[i] in key && line[i..i + 1][0] == line[i];
    }
    assert line[|key|..|key| + 1] == ":";
    FindFirst(line, ":", 0, |key|);
    assert line[..|key|] == key && line[|key| + 1..] == blank + value;
    TrimTrims(blank, value);
  }

  lemma NoColonIn(key: string)
    requires ValidKey(key)
    ensures forall c :: c in key ==> c != ':'
  {
  }

  /** The value of a key is that of the last line that reads as one for it. */
  lemma {:induction false} LastLineWins(lines: seq<string>, key: string, value: string)
    ensures (key in KeyValues(lines) && KeyValues(lines)[key] == value) <==>
              exists i :: 0 <= i < |lines| && IsLastFor(lines, key, value, i)
    decreases |lines|
  {
    hide ParseLine;
    if lines != [] {
      var n := |lines| - 1;
      LastLineWins(lines[..n], key, value);
      forall i | 0 <= i < n ensures IsLastFor(lines, key, value, i) <==> IsLastFor(lines[..n], key, value, i) && !NamesKey(lines[n], key) {
        LastForMore(lines, key, value, i);
      }
      assert IsLastFor(lines, key, value, n) <==> ParseLine(lines[n]) == Some((key, value));
      hide IsLastFor;
    }
  }

  ghost predicate NamesKey(line: string, key: string) {
    ParseLine(line).Some? && ParseLine(line).value.0 == key
  }

  ghost predicate IsLastFor(lines: seq<string>, key: string, value: string, i: nat)
    requires i < |lines|
  {
    ParseLine(lines[i]) == Some((key, value)) && forall k :: i < k < |lines| ==> !NamesKey(lines[k], key)
  }

  lemma LastForMore(lines: seq<string>, key: string, value: string, i: nat)
    requires i < |lines| - 1
    ensures var n := |lines| - 1; IsLastFor(lines, key, value, i) <==> IsLastFor(lines[..n], key, value, i) && !NamesKey(lines[n], key)
  {
    hide ParseLine;
    var n := |lines| - 1;
    assert forall k :: 0 <= k < n ==> lines[..n][k] == lines[k];
  }

  // ---- the fences --------------------------------------------------------------------------------------------

  /** A header between an opening fence and the first closing one behind it. */
  ghost predicate FencedAs(doc: string, header: string, rest: string) {
    && doc == "---\n" + header + "\n---" + rest
    && forall i :: 4 <= i < 4 + |header| ==> !StandsAt(doc, "\n---", i)
  }

  /** A fenced document reads as its header's lines and what is behind the fence, one line break dropped. */
  lemma FencedReads(doc: string, header: string, rest: string)
    requires FencedAs(doc, header, rest)
    ensures ParseFrontmatter(doc) ==
              Frontmatter(KeyValues(Split(header)), if rest != "" && rest[0] == '\n' then rest[1..] else rest)
  {
    hide KeyValues, Split;
    var at := 4 + |header|;
    assert doc[..4] == "---\n" && doc[4..at] == header && doc[at + 4..] == rest;
    assert StandsAt(doc, "\n---", at);
    hide StandsAt;
    FindFirst(doc, "\n---", 4, at);
  }

  /** Any other document is all body. */
  lemma UnfencedReads(doc: string)
    requires forall header, rest :: !FencedAs(doc, header, rest)
    ensures ParseFrontmatter(doc) == Frontmatter(map[], doc)
  {
    hide KeyValues, Split, FencedAs;
    if |doc| >= 4 && doc[..4] == "---\n" && Find(doc, "\n---", 4).Some? { FenceIsFound(doc, Find(doc, "\n---", 4).value); }
  }

  lemma FenceIsFound(doc: string, at: nat)
    requires |doc| >= 4 && doc[..4] == "---\n" && Find(doc, "\n---", 4) == Some(at)
    ensures FencedAs(doc, doc[4..at], doc[at + 4..])
  {
    FirstAt(doc, "\n---", 4, at);
    CutAt(doc, at);
    hide StandsAt, Find;
  }

  lemma CutAt(doc: string, at: nat)
    requires |doc| >= 4 && doc[..4] == "---\n" && 4 <= at && StandsAt(doc, "\n---", at)
    ensures doc == "---\n" + doc[4..at] + "\n---" + doc[at + 4..]
  {
    var open, close := doc[..4], doc[at..at + 4];
    assert doc == open + doc[4..at] + close + doc[at + 4..];
  }

  lemma {:induction false} FirstAt(text: string, pattern: string, from: nat, at: nat)
    requires Find(text, pattern, from) == Some(at)
    ensures forall i :: from <= i < at ==> !StandsAt(text, pattern, i)
    decreases |text| - from
  {
    if !StandsAt(text, pattern, from) { FirstAt(text, pattern, from + 1, at); }
  }

  // ---- errors -------------------------------------------------------------------------------------------------

  /** Why a document is not read: a newer version only when it declares one, malformed for anything else. */
  lemma UnreadableBecause(o: Outside, doc: string)
    ensures var fm, r := ParseFrontmatter(doc).fields, Parse(o, doc);
            var version := if "schemaVersion" in fm then o.integer(fm["schemaVersion"]) else None;
            && (r == Err(FutureVersion) <==> version.Some? && version.value > SCHEMA_VERSION)
            && (version.None? || version.value < 1 ==> r == Err(Malformed))
            && (r.Ok? ==> version == Some(SCHEMA_VERSION))
            && r != Err(UnsupportedVersion)
  {
    hide ParseFrontmatter, ReadSources, ValidScope, ValidId, Given;
  }

  /** The values a record prints behind its version. */
  function Values(o: Outside, r: Record): seq<string> {
    [r.id, r.kind, r.scope, r.created, o.printSources(r.sources)]
    + (if r.model.Some? then [r.model.value] else []) + [r.status] + BoardValues(r)
  }

  function BoardValues(r: Record): seq<string> {
    if r.kind == "board-message" then [Or(r.to, ""), Or(r.from, ""), Or(r.channel, ""), Or(r.ttl, "")] else []
  }

  function ValuesOf(fs: seq<Field>): (vs: seq<string>)
    ensures |vs| == |fs| && forall i :: 0 <= i < |fs| ==> vs[i] == fs[i].value
  {
    seq(|fs|, i requires 0 <= i < |fs| => fs[i].value)
  }

  lemma ValuesConcat(a: seq<Field>, b: seq<Field>)
    ensures ValuesOf(a + b) == ValuesOf(a) + ValuesOf(b)
  {
  }

  lemma HeaderValues(o: Outside, r: Record)
    ensures ValuesOf(Header(o, r)[1..]) == Values(o, r) && Header(o, r) != [] && Header(o, r)[0].value == "1"
  {
    var a, b, c, d := FixedFields(o, r), ModelField(r), [Field(StatusKey, r.status)], BoardFields(r);
    assert ValuesOf(a[1..]) == [r.id, r.kind, r.scope, r.created, o.printSources(r.sources)];
    assert ValuesOf(b) == if r.model.Some? then [r.model.value] else [];
    assert ValuesOf(c) == [r.status];
    assert ValuesOf(d) == BoardValues(r);
    hide FixedFields, ModelField, BoardFields, BoardValues, ValuesOf;
    assert Header(o, r)[1..] == a[1..] + b + c + d;
    ValuesConcat(a[1..], b);
    ValuesConcat(a[1..] + b, c);
    ValuesConcat(a[1..] + b + c, d);
  }

  lemma HeaderHolds(o: Outside, r: Record)
    ensures forall f :: f in Header(o, r) ==> f.value == "1" || f.value in Values(o, r)
    ensures forall v :: v in Values(o, r) ==> exists f :: f in Header(o, r) && f.value == v
  {
    HeaderValues(o, r);
    hide Header, Values;
    var fs := Header(o, r);
    assert fs == [fs[0]] + fs[1..];
    forall f | f in fs ensures f.value == "1" || f.value in ValuesOf(fs[1..]) {
      var i :| 0 <= i < |fs| && fs[i] == f;
      if i > 0 { assert ValuesOf(fs[1..])[i - 1] == f.value; }
    }
    forall v | v in ValuesOf(fs[1..]) ensures exists f :: f in fs && f.value == v {
      var i :| 0 <= i < |fs| - 1 && ValuesOf(fs[1..])[i] == v;
      assert fs[i + 1] in fs && fs[i + 1].value == v;
    }
  }

  lemma OneLineIff(v: string)
    ensures OneLine(v) <==> forall c :: c in v ==> c !in "\n\r"
  {
    var breaks := "\n\r";
    assert breaks[0] == '\n' && breaks[1] == '\r';
  }

  /** A record is printed exactly when it has the one version and no value of its header breaks a line. */
  lemma PrintedIff(o: Outside, r: Record)
    ensures var w := Serialize(o, r);
            && (w.Ok? <==> r.schemaVersion == SCHEMA_VERSION && forall v, c :: v in Values(o, r) && c in v ==> c !in "\n\r")
            && (w == Err(WrongVersion) <==> r.schemaVersion != SCHEMA_VERSION)
  {
    HeaderHolds(o, r);
    assert OneLine("1");
    hide Fenced, Header, Values;
    forall v: string ensures OneLine(v) <==> forall c :: c in v ==> c !in "\n\r" { OneLineIff(v); }
    hide OneLine;
  }
}
