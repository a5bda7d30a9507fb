/**
 * Recovery of a proposal decision: from every crash point of an approval after its first write,
 * any number of undo attempts, each cut anywhere, and one that is not, reach the undone state.
 */
module ProposalRecovery {
  import opened Common
  import opened Records
  import opened DataBlocks
  import opened Proposals

  // ---- text ------------------------------------------------------------------------------

  lemma {:induction false} TrimConcat(a: string, b: string)
    ensures TrimNewlines(a + b) == if TrimNewlines(b) == "" then TrimNewlines(a) else a + TrimNewlines(b)
    decreases |b|
  {
    if b == "" {
      assert a + b == a;
    } else if b[|b| - 1] == '\n' {
      TrimConcat(a, b[..|b| - 1]);
      assert (a + b)[..|a + b| - 1] == a + b[..|b| - 1];
    }
  }

  /** Appending a provenance line to a document, seen from its body. */
  function AppendToBody(body: string, line: string): string {
    var t := TrimNewlines(body);
    (if t == "" then "" else t + "\n") + (PROVENANCE + line + "\n")
  }

  function Extended(body: string, lines: seq<string>): string {
    if lines == [] then body else AppendToBody(Extended(body, lines[..|lines| - 1]), lines[|lines| - 1])
  }

  ghost predicate Extends(before: string, after: string) {
    exists lines: seq<string> :: after == Extended(before, lines)
  }

  lemma ExtendsRefl(body: string)
    ensures Extends(body, body)
  {
    assert body == Extended(body, []);
  }

  lemma ExtendsMore(before: string, after: string, line: string)
    requires Extends(before, after)
    ensures Extends(before, AppendToBody(after, line))
  {
    var lines: seq<string> :| after == Extended(before, lines);
    assert (lines + [line])[..|lines|] == lines;
    assert AppendToBody(after, line) == Extended(before, lines + [line]);
  }

  lemma ExtendsTrans(a: string, b: string, c: string)
    requires Extends(a, b) && Extends(b, c)
    ensures Extends(a, c)
  {
    var lines: seq<string> :| c == Extended(b, lines);
    ExtendsFold(a, b, lines);
  }

  lemma {:induction false} ExtendsFold(a: string, b: string, lines: seq<string>)
    requires Extends(a, b)
    ensures Extends(a, Extended(b, lines))
    decreases |lines|
  {
    if lines != [] {
      ExtendsFold(a, b, lines[..|lines| - 1]);
      ExtendsMore(a, Extended(b, lines[..|lines| - 1]), lines[|lines| - 1]);
    }
  }

  lemma TrimOfAppended(body: string, line: string)
    ensures TrimNewlines(body) <= TrimNewlines(AppendToBody(body, line))
    ensures TrimNewlines(body) <= AppendToBody(body, line)
  {
    var t := TrimNewlines(body);
    var head := if t == "" then "" else t + "\n";
    var tail := PROVENANCE + line + "\n";
    assert t <= head;
    TrimConcat(head, tail);
    TrimConcat(PROVENANCE, line + "\n");
    assert PROVENANCE + (line + "\n") == tail;
  }

  /** An extended body starts with the original one, up to its trailing newlines. */
  lemma {:induction false} ExtensionKeepsTheBody(body: string, lines: seq<string>)
    ensures TrimNewlines(body) <= Extended(body, lines)
    ensures TrimNewlines(body) <= TrimNewlines(Extended(body, lines))
    decreases |lines|
  {
    if lines != [] {
      ExtensionKeepsTheBody(body, lines[..|lines| - 1]);
      TrimOfAppended(Extended(body, lines[..|lines| - 1]), lines[|lines| - 1]);
    }
  }

  lemma ContainsIn(text: string, part: string, before: string, after: string)
    requires Contains(text, part)
    ensures Contains(before + text + after, part)
  {
    var i :| 0 <= i <= |text| && StandsAt(text, part, i);
    var whole := before + text + after;
    assert whole[|before| + i..|before| + i + |part|] == part;
    assert StandsAt(whole, part, |before| + i);
  }

  lemma ContainsSelf(part: string)
    ensures Contains(part, part)
  {
    assert part[0..|part|] == part && StandsAt(part, part, 0);
  }

  lemma {:induction false} TrimContains(text: string, part: string)
    requires Contains(text, part) && part != "" && part[|part| - 1] != '\n'
    ensures Contains(TrimNewlines(text), part)
  {
    if text != "" && text[|text| - 1] == '\n' {
      var i :| 0 <= i <= |text| && StandsAt(text, part, i);
      var shorter := text[..|text| - 1];
      assert text[i + |part| - 1] == text[i..i + |part|][|part| - 1];
      assert shorter[i..i + |part|] == part;
      assert StandsAt(shorter, part, i);
      TrimContains(shorter, part);
    }
  }

  /** A marker that does not end in a newline survives, and the new line's text is there too. */
  lemma AppendContains(body: string, line: string, part: string)
    requires part != "" && part[|part| - 1] != '\n'
    requires Contains(body, part) || Contains(line, part)
    ensures Contains(AppendToBody(body, line), part)
  {
    var t := TrimNewlines(body);
    var head := if t == "" then "" else t + "\n";
    var tail := PROVENANCE + line + "\n";
    if Contains(line, part) {
      ContainsIn(line, part, PROVENANCE, "\n");
      ContainsIn(tail, part, head, "");
      assert head + tail + "" == head + tail;
    } else {
      TrimContains(body, part);
      if t == "" {
        ContainsIn(t, part, "", tail);
        assert "" + t + tail == head + tail;
      } else {
        ContainsIn(t, part, "", "\n" + tail);
        assert "" + t + ("\n" + tail) == t + "\n" + tail;
      }
    }
  }

  lemma {:induction false} FindFinds(text: string, part: string, from: nat, i: nat)
    requires from <= i && StandsAt(text, part, i)
    ensures Find(text, part, from).Some?
    decreases i - from
  {
    if from < i { FindFinds(text, part, from + 1, i); }
  }

  lemma IncludesIff(text: string, part: string)
    ensures Includes(text, part) <==> Contains(text, part)
  {
    if Contains(text, part) {
      var i :| 0 <= i <= |text| && StandsAt(text, part, i);
      FindFinds(text, part, 0, i);
    }
  }

  // ---- documents as records ------------------------------------------------------------------

  ghost predicate Writable(o: Outside, r: Record) {
    r.schemaVersion == SCHEMA_VERSION && Storable(o, r)
  }

  function Doc(o: Outside, r: Record): string {
    Fenced(Header(o, r), r.body)
  }

  lemma CleanIsOneLine(s: string)
    requires Clean(s)
    ensures OneLine(s)
  {
  }

  lemma WritableSerializes(o: Outside, r: Record)
    requires Faithful(o) && Writable(o, r)
    ensures Serialize(o, r) == Ok(Doc(o, r))
  {
    HeaderOneLine(o, r);
    hide Header, Fenced, Storable;
  }

  lemma HeaderOneLine(o: Outside, r: Record)
    requires Faithful(o) && Writable(o, r)
    ensures forall f :: f in Header(o, r) ==> OneLine(f.value)
  {
    ConstantsAreClean("1");
    ConstantsAreClean(r.id);
    ConstantsAreClean(r.kind);
    ConstantsAreClean(r.status);
    assert BoardFieldOk(r, r.to) && BoardFieldOk(r, r.from) && BoardFieldOk(r, r.channel) && BoardFieldOk(r, r.ttl);
    hide ValidId, KnownKind, KnownStatus, ValidScope;
    forall f | f in Header(o, r) ensures OneLine(f.value) {
      assert Clean(f.value);
      CleanIsOneLine(f.value);
    }
  }

  lemma DocParses(o: Outside, r: Record)
    requires Faithful(o) && Writable(o, r)
    ensures Parse(o, Doc(o, r)) == Ok(r)
  {
    WritableSerializes(o, r);
    RoundTripIff(o, r);
    hide Parse, Serialize, Doc, Storable;
  }

  lemma HeadEnds(o: Outside, r: Record)
    ensures var head := "---\n" + Join(FmLines(Header(o, r))) + "\n---";
            && Doc(o, r) == head + "\n" + r.body
            && TrimNewlines(head + "\n") == head
  {
    hide Join, FmLines, Header;
    var head := "---\n" + Join(FmLines(Header(o, r))) + "\n---";
    assert head + "\n" + r.body == "---\n" + Join(FmLines(Header(o, r))) + "\n---\n" + r.body;
  }

  lemma AppendBehind(head: string, body: string, line: string)
    requires TrimNewlines(head + "\n") == head
    ensures AppendProvenance(head + "\n" + body, line) == head + "\n" + AppendToBody(body, line)
  {
    TrimConcat(head + "\n", body);
    hide TrimNewlines;
    var t, tail := TrimNewlines(body), PROVENANCE + line + "\n";
    if t != "" {
      Assoc(head + "\n", t, "\n");
      Assoc(head + "\n", t + "\n", tail);
    }
  }

  /** A provenance line appended to a document is a line appended to its body. */
  lemma AppendIsOnBody(o: Outside, r: Record, line: string)
    ensures AppendProvenance(Doc(o, r), line) == Doc(o, r.(body := AppendToBody(r.body, line)))
  {
    var r' := r.(body := AppendToBody(r.body, line));
    HeadEnds(o, r);
    HeadEnds(o, r');
    assert Header(o, r) == Header(o, r');
    hide Doc, Join, FmLines, Header, TrimNewlines, AppendProvenance, AppendToBody;
    AppendBehind("---\n" + Join(FmLines(Header(o, r))) + "\n---", r.body, line);
  }

  /** What one transition write does to a record: its status, and one more line. */
  lemma TransitionIs(o: Outside, r: Record, status: string, line: string)
    requires Faithful(o) && Writable(o, r) && KnownStatus(status)
    ensures Transitioned(o, Doc(o, r), status, line) ==
            Some(Doc(o, r.(status := status, body := AppendToBody(r.body, line))))
  {
    hide WithStatus, AppendProvenance, Doc, Writable, AppendToBody, Faithful, KnownStatus;
    WithStatusChangesOnlyTheStatus(o, r, status);
    AppendIsOnBody(o, r.(status := status), line);
  }

  lemma StatusStaysWritable(o: Outside, r: Record, status: string, body: string)
    requires Writable(o, r) && KnownStatus(status)
    ensures Writable(o, r.(status := status, body := body))
  {
    hide KnownStatus, ValidId, KnownKind, ValidScope, Clean, SourceOk;
  }

  /** `withStatus` changes the status and nothing else. */
  lemma WithStatusChangesOnlyTheStatus(o: Outside, r: Record, status: string)
    requires Faithful(o) && Writable(o, r) && KnownStatus(status)
    ensures WithStatus(o, Doc(o, r), status) == Some(Doc(o, r.(status := status)))
    ensures Parse(o, Doc(o, r.(status := status))) == Ok(r.(status := status))
  {
    hide Parse, Serialize, Doc, Writable, Faithful, KnownStatus;
    var changed := r.(status := status);
    StatusStaysWritable(o, r, status, r.body);
    DocParses(o, r);
    DocParses(o, changed);
    WritableSerializes(o, changed);
  }

  // ---- the state between writes ------------------------------------------------------------------

  type Recs = map<string, Record>

  ghost predicate Abs(o: Outside, docs: Docs, recs: Recs) {
    forall p :: p in recs ==> p in docs && Writable(o, recs[p]) && docs[p] == Doc(o, recs[p])
  }

  ghost predicate Variant(a: Record, b: Record) {
    b == a.(status := b.status, body := b.body) && Extends(a.body, b.body)
  }

  lemma VariantTrans(a: Record, b: Record, c: Record)
    requires Variant(a, b) && Variant(b, c)
    ensures Variant(a, c)
  {
    ExtendsTrans(a.body, b.body, c.body);
  }

  lemma AbsReads(w: World, docs: Docs, recs: Recs, p: string)
    requires Faithful(w.o) && Abs(w.o, docs, recs) && p in recs
    ensures p in docs && ReadStatus(w, docs, p) == Some(recs[p].status)
  {
    DocParses(w.o, recs[p]);
    hide Parse, Doc, Writable;
  }

  /** A record after one transition write. */
  function Stepped(r: Record, status: string, line: string): Record {
    r.(status := status, body := AppendToBody(r.body, line))
  }

  lemma AbsWrites(w: World, docs: Docs, recs: Recs, p: string, status: string, line: string)
    requires Faithful(w.o) && Abs(w.o, docs, recs) && p in recs && KnownStatus(status)
    ensures p in docs
    ensures var r := Stepped(recs[p], status, line);
            var doc := Transitioned(w.o, docs[p], status, line);
            doc.Some? && Abs(w.o, docs[p := doc.value], recs[p := r]) && Variant(recs[p], r)
  {
    hide Transitioned, Doc, Writable, AppendToBody, Abs, Variant, Faithful, KnownStatus;
    var r := Stepped(recs[p], status, line);
    AbsAt(w.o, docs, recs, p);
    TransitionIs(w.o, recs[p], status, line);
    StatusStaysWritable(w.o, recs[p], status, r.body);
    SteppedIsVariant(recs[p], status, line);
    AbsPut(w.o, docs, recs, p, r);
  }

  lemma AbsAt(o: Outside, docs: Docs, recs: Recs, p: string)
    requires Abs(o, docs, recs) && p in recs
    ensures p in docs && Writable(o, recs[p]) && docs[p] == Doc(o, recs[p])
  {
    hide Writable, Doc;
  }

  lemma SteppedIsVariant(r: Record, status: string, line: string)
    ensures Variant(r, Stepped(r, status, line))
  {
    hide Extends, AppendToBody;
    ExtendsRefl(r.body);
    ExtendsMore(r.body, r.body, line);
  }

  lemma AbsPut(o: Outside, docs: Docs, recs: Recs, p: string, r: Record)
    requires Abs(o, docs, recs) && Writable(o, r)
    ensures Abs(o, docs[p := Doc(o, r)], recs[p := r])
  {
    hide Writable, Doc;
  }

  /** A target is visible, or superseded with this proposal's mark in its document. */
  ghost predicate TargetOk(o: Outside, r: Record, id: string) {
    r.status == "active" || (r.status == "superseded" && Includes(Doc(o, r), SupersededBy(id)))
  }

  /** From `a` to `b` only the named records moved on, and each target is still accounted for. */
  ghost predicate Moved(o: Outside, a: Recs, b: Recs, paths: seq<string>, id: string) {
    && a.Keys == b.Keys
    && (forall x :: x in a && x !in paths ==> b[x] == a[x])
    && (forall x :: x in a && x in paths ==> Variant(a[x], b[x]) && TargetOk(o, b[x], id))
  }

  lemma MovedTrans(o: Outside, a: Recs, b: Recs, c: Recs, paths: seq<string>, id: string)
    requires Moved(o, a, b, paths, id) && Moved(o, b, c, paths, id)
    ensures Moved(o, a, c, paths, id)
  {
    hide TargetOk;
    forall x | x in a && x in paths ensures Variant(a[x], c[x]) {
      VariantTrans(a[x], b[x], c[x]);
    }
    hide Variant;
  }

  lemma VariantRefl(r: Record)
    ensures Variant(r, r)
  {
    ExtendsRefl(r.body);
  }

  lemma MovedRefl(o: Outside, a: Recs, paths: seq<string>, id: string)
    requires forall x :: x in a && x in paths ==> TargetOk(o, a[x], id)
    ensures Moved(o, a, a, paths, id)
  {
    hide TargetOk, Variant;
    forall x | x in a && x in paths ensures Variant(a[x], a[x]) {
      VariantRefl(a[x]);
    }
  }

  ghost predicate TargetsOk(o: Outside, recs: Recs, paths: seq<string>, id: string) {
    forall x :: x in paths ==> x in recs && TargetOk(o, recs[x], id)
  }

  lemma MovedOne(o: Outside, recs: Recs, p: string, r: Record, paths: seq<string>, id: string)
    requires TargetsOk(o, recs, paths, id) && p in paths
    requires Variant(recs[p], r) && TargetOk(o, r, id)
    ensures Moved(o, recs, recs[p := r], paths, id) && TargetsOk(o, recs[p := r], paths, id)
  {
    hide TargetOk, Variant;
    forall x | x in recs && x in paths && x != p ensures Variant(recs[x], recs[x]) {
      VariantRefl(recs[x]);
    }
  }

  lemma LinesMark(id: string, rest: string)
    ensures Contains(SupersededBy(id) + rest, SupersededBy(id))
    ensures SupersededBy(id) != "" && SupersededBy(id)[|SupersededBy(id)| - 1] != '\n'
  {
    ContainsSelf(SupersededBy(id));
    ContainsIn(SupersededBy(id), SupersededBy(id), "", rest);
    assert "" + SupersededBy(id) + rest == SupersededBy(id) + rest;
  }

  lemma StatusKnown(status: string)
    requires status == "active" || status == "superseded"
    ensures KnownStatus(status)
  {
  }

  lemma IncludesMarker(o: Outside, r: Record, part: string)
    requires Contains(r.body, part)
    ensures Includes(Doc(o, r), part)
  {
    HeadEnds(o, r);
    var head := "---\n" + Join(FmLines(Header(o, r))) + "\n---";
    hide Join, FmLines, Header, Includes;
    ContainsIn(r.body, part, head + "\n", "");
    assert head + "\n" + r.body + "" == head + "\n" + r.body;
    IncludesIff(Doc(o, r), part);
  }

  lemma WrittenIsOk(o: Outside, r: Record, status: string, line: string, id: string)
    requires status == "active" || (status == "superseded" && Contains(line, SupersededBy(id)))
    ensures TargetOk(o, Stepped(r, status, line), id) && Stepped(r, status, line).status == status
  {
    if status != "active" {
      LinesMark(id, "");
      AppendContains(r.body, line, SupersededBy(id));
      IncludesMarker(o, Stepped(r, status, line), SupersededBy(id));
    }
    hide AppendToBody, Contains, SupersededBy, Doc, Includes;
  }

  /** One target write: the abstract state takes the same step. */
  lemma TargetWrite(w: World, docs: Docs, recs: Recs, p: string, status: string, line: string, all: seq<string>, id: string)
    returns (next: Recs)
    requires Faithful(w.o) && Abs(w.o, docs, recs) && TargetsOk(w.o, recs, all, id) && p in all
    requires status == "active" || (status == "superseded" && Contains(line, SupersededBy(id)))
    ensures p in docs && Transitioned(w.o, docs[p], status, line).Some?
    ensures Abs(w.o, docs[p := Transitioned(w.o, docs[p], status, line).value], next)
    ensures Moved(w.o, recs, next, all, id) && TargetsOk(w.o, next, all, id)
    ensures p in next && next[p].status == status && forall x :: x in recs && x != p ==> x in next && next[x] == recs[x]
  {
    hide Stepped, Abs, Moved, Transitioned, Variant, TargetOk, Contains, AppendToBody, SupersededBy, Faithful, KnownStatus;
    assert p in recs;
    var r := Stepped(recs[p], status, line);
    StatusKnown(status);
    AbsWrites(w, docs, recs, p, status, line);
    WrittenIsOk(w.o, recs[p], status, line, id);
    MovedOne(w.o, recs, p, r, all, id);
    next := recs[p := r];
  }

  lemma TargetAt(o: Outside, recs: Recs, all: seq<string>, id: string, i: nat)
    requires TargetsOk(o, recs, all, id) && i < |all|
    ensures all[i] in all && all[i] in recs && TargetOk(o, recs[all[i]], id)
  {
    hide TargetOk;
  }

  lemma MovedNothing(o: Outside, recs: Recs, all: seq<string>, id: string)
    requires TargetsOk(o, recs, all, id)
    ensures Moved(o, recs, recs, all, id)
  {
    hide TargetOk, Moved;
    MovedRefl(o, recs, all, id);
  }

  /** Whatever its outcome, superseding moves targets only forward. */
  lemma {:induction false} SupersedeMoves(w: World, docs: Docs, recs: Recs, budget: nat, all: seq<string>, i: nat, id: string, rest: string)
    returns (after: Recs)
    requires Faithful(w.o) && Abs(w.o, docs, recs) && TargetsOk(w.o, recs, all, id) && i <= |all|
    ensures Abs(w.o, SupersedeTargets(w, docs, budget, all[i..], SupersededBy(id) + rest).docs, after)
    ensures Moved(w.o, recs, after, all, id) && TargetsOk(w.o, after, all, id)
    decreases |all| - i
  {
    hide Abs, Moved, TargetOk, TargetsOk, ReadStatus, Transitioned, Contains, Faithful, SupersededBy;
    MovedNothing(w.o, recs, all, id);
    after := recs;
    var line := SupersededBy(id) + rest;
    if i < |all| {
      var p := all[i];
      TargetAt(w.o, recs, all, id, i);
      assert all[i..][0] == p && all[i..][1..] == all[i + 1..];
      AbsReads(w, docs, recs, p);
      if recs[p].status == "active" {
        LinesMark(id, rest);
        var next := TargetWrite(w, docs, recs, p, "superseded", line, all, id);
        if budget > 0 {
          var docs' := docs[p := Transitioned(w.o, docs[p], "superseded", line).value];
          after := SupersedeMoves(w, docs', next, budget - 1, all, i + 1, id, rest);
          MovedTrans(w.o, recs, next, after, all, id);
        }
      }
    }
  }

  ghost predicate ActiveBefore(recs: Recs, all: seq<string>, n: nat)
    requires n <= |all|
  {
    forall k :: 0 <= k < n ==> all[k] in recs && recs[all[k]].status == "active"
  }

  lemma ActiveNext(recs: Recs, next: Recs, all: seq<string>, i: nat)
    requires i < |all| && ActiveBefore(recs, all, i)
    requires all[i] in next && next[all[i]].status == "active" && forall x :: x in recs && x != all[i] ==> x in next && next[x] == recs[x]
    ensures ActiveBefore(next, all, i + 1)
  {
  }

  /** Restoring never meets a state it refuses; with enough writes it ends with all targets active. */
  lemma {:induction false} RestoreMoves(w: World, docs: Docs, recs: Recs, budget: nat, all: seq<string>, i: nat, id: string, line: string)
    returns (after: Recs)
    requires Faithful(w.o) && Abs(w.o, docs, recs) && TargetsOk(w.o, recs, all, id) && i <= |all|
    requires ActiveBefore(recs, all, i)
    ensures var run := RestoreTargets(w, docs, budget, all[i..], id, line);
            && Abs(w.o, run.docs, after)
            && (run.outcome == Applied || run.outcome == Died)
            && (budget >= |all| - i ==> run.outcome == Applied && run.budget >= budget - (|all| - i))
            && (run.outcome == Applied ==> ActiveBefore(after, all, |all|))
    ensures Moved(w.o, recs, after, all, id) && TargetsOk(w.o, after, all, id)
    decreases |all| - i
  {
    hide Abs, Moved, TargetOk, TargetsOk, ReadStatus, Transitioned, Includes, Contains, ActiveBefore, SupersededBy, Faithful;
    MovedNothing(w.o, recs, all, id);
    after := recs;
    if i < |all| {
      var p := all[i];
      TargetAt(w.o, recs, all, id, i);
      assert all[i..][0] == p && all[i..][1..] == all[i + 1..];
      AbsReads(w, docs, recs, p);
      if recs[p].status == "active" {
        ActiveNext(recs, recs, all, i);
        after := RestoreMoves(w, docs, recs, budget, all, i + 1, id, line);
      } else {
        SupersededIsMarked(w, docs, recs, p, id);
        var next := TargetWrite(w, docs, recs, p, "active", line, all, id);
        ActiveNext(recs, next, all, i);
        if budget > 0 {
          var docs' := docs[p := Transitioned(w.o, docs[p], "active", line).value];
          after := RestoreMoves(w, docs', next, budget - 1, all, i + 1, id, line);
          MovedTrans(w.o, recs, next, after, all, id);
        }
      }
    }
  }

  lemma SupersededIsMarked(w: World, docs: Docs, recs: Recs, p: string, id: string)
    requires Abs(w.o, docs, recs) && p in recs && TargetOk(w.o, recs[p], id) && recs[p].status != "active"
    ensures recs[p].status == "superseded" && p in docs && Includes(docs[p], SupersededBy(id))
  {
  }

  // ---- the proposal's own record -----------------------------------------------------------------

  ghost predicate HasBlock(body: string, json: string) {
    exists after: string :: body == SerializeDataBlock(json) + after
  }

  /** The data block survives appended lines: its own last newline is the one they keep. */
  lemma AppendKeepsBlock(body: string, json: string, line: string)
    requires HasBlock(body, json)
    ensures HasBlock(AppendToBody(body, line), json)
  {
    var after: string :| body == SerializeDataBlock(json) + after;
    var open := FENCE_BEGIN + FENCE_TAIL + json + FENCE_END;
    assert open[|open| - 1] == '>';
    assert SerializeDataBlock(json) == open + "\n";
    var tail := PROVENANCE + line + "\n";
    BlockTail(open, after, body, tail);
    if TrimNewlines(after) == "" {
      assert AppendToBody(body, line) == SerializeDataBlock(json) + tail;
    } else {
      assert AppendToBody(body, line) == SerializeDataBlock(json) + (TrimNewlines(after) + "\n" + tail);
    }
  }

  lemma BlockTail(open: string, after: string, body: string, tail: string)
    requires open != "" && TrimNewlines(open + "\n") == open && body == open + "\n" + after
    ensures var t := TrimNewlines(body);
            && t != ""
            && t + "\n" + tail == (open + "\n") + (if TrimNewlines(after) == "" then tail else TrimNewlines(after) + "\n" + tail)
  {
    TrimConcat(open + "\n", after);
    hide TrimNewlines;
    if TrimNewlines(after) != "" {
      Assoc(open + "\n", TrimNewlines(after) + "\n", tail);
      Assoc(open + "\n", TrimNewlines(after), "\n");
    }
  }

  lemma BlockIsRead(body: string, json: string)
    requires JsonLayout(json) && HasBlock(body, json)
    ensures ParseDataBlock(body) == Some(json)
  {
    var after: string :| body == SerializeDataBlock(json) + after;
    BlockReadsBack(json, after);
  }

  datatype Case = Case(path: string, id: string, json: string, targets: Targets, base: Recs)

  /** A pending proposal over at least two other documents; those that can be read are records. */
  ghost predicate Pending(w: World, docs: Docs, c: Case) {
    && Faithful(w.o) && Abs(w.o, docs, c.base)
    && c.path in c.base && c.path !in c.targets.paths
    && (forall x :: x in c.targets.paths && ReadStatus(w, docs, x).Some? ==> x in c.base)
    && |c.targets.ids| == |c.targets.paths| >= 2
    && c.base[c.path].kind == "proposal" && c.base[c.path].id == c.id && c.base[c.path].status == "pending-approval"
    && JsonLayout(c.json) && HasBlock(c.base[c.path].body, c.json) && w.targetsOf(c.json) == Some(c.targets)
  }

  ghost predicate ProposalOk(c: Case, r: Record, recs: Recs)
    requires c.path in c.base
  {
    && Variant(c.base[c.path], r) && HasBlock(r.body, c.json)
    && ((r.status == "active" && Contains(r.body, "approved by "))
        || (r.status == "superseded" && Contains(r.body, "approval undone by ") && Contains(r.body, "(op ")
            && forall x :: x in c.targets.paths ==> x in recs && recs[x].status == "active"))
  }

  /** What holds between any two writes once the approval was recorded. */
  ghost predicate Decided(w: World, docs: Docs, recs: Recs, c: Case) {
    && Abs(w.o, docs, recs) && recs.Keys == c.base.Keys
    && TargetsOk(w.o, recs, c.targets.paths, c.id)
    && (forall x :: x in c.targets.paths ==> x in c.base && Variant(c.base[x], recs[x]))
    && c.path in recs && c.path in c.base && ProposalOk(c, recs[c.path], recs)
  }

  lemma ProposalReads(w: World, docs: Docs, recs: Recs, c: Case)
    requires Faithful(w.o) && Abs(w.o, docs, recs) && c.path in recs && c.path in c.base
    requires Variant(c.base[c.path], recs[c.path]) && c.base[c.path].kind == "proposal" && c.base[c.path].id == c.id
    requires JsonLayout(c.json) && HasBlock(recs[c.path].body, c.json) && w.targetsOf(c.json) == Some(c.targets)
    requires |c.targets.ids| == |c.targets.paths| >= 2
    ensures ReadProposal(w, docs, c.path) == Some(Proposal(c.id, recs[c.path].status, c.targets))
  {
    DocParses(w.o, recs[c.path]);
    BlockIsRead(recs[c.path].body, c.json);
    hide Parse, Doc, Writable, ParseDataBlock, HasBlock, JsonLayout, Extends;
  }

  function ApproveLines(id: string, actor: string, at: string, op: string): Lines {
    Lines("approved by " + (actor + " at " + at + " (op " + op + ", by " + actor + ")"),
          SupersededBy(id) + ("at " + at + " (op " + op + ", by " + actor + ")"))
  }

  function UndoLines(id: string, actor: string, at: string, op: string, reason: string): Lines {
    Lines("approval undone by " + actor + " at " + at + " (op " + (op + ")" + reason),
          "restored by undo of proposal " + id + " at " + at + " (op " + op + ", by " + actor + ")" + reason)
  }

  lemma ApprovalIsNoted(body: string, id: string, actor: string, at: string, op: string)
    ensures Contains(AppendToBody(body, ApproveLines(id, actor, at, op).onProposal), "approved by ")
  {
    var rest := actor + " at " + at + " (op " + op + ", by " + actor + ")";
    ContainsSelf("approved by ");
    ContainsIn("approved by ", "approved by ", "", rest);
    assert "" + "approved by " + rest == "approved by " + rest;
    AppendContains(body, "approved by " + rest, "approved by ");
  }

  lemma UndoIsNoted(body: string, id: string, actor: string, at: string, op: string, reason: string)
    ensures var after := AppendToBody(body, UndoLines(id, actor, at, op, reason).onProposal);
            Contains(after, "approval undone by ") && Contains(after, "(op ")
  {
    hide Contains, AppendToBody;
    var line := UndoLines(id, actor, at, op, reason).onProposal;
    var head, tail := "approval undone by " + actor + " at " + at + " ", op + ")" + reason;
    assert line == head + "(op " + tail;
    ContainsSelf("(op ");
    ContainsIn("(op ", "(op ", head, tail);
    ContainsSelf("approval undone by ");
    var rest := actor + " at " + at + " (op " + tail;
    assert line == "" + "approval undone by " + rest;
    ContainsIn("approval undone by ", "approval undone by ", "", rest);
    AppendContains(body, line, "(op ");
    AppendContains(body, line, "approval undone by ");
  }

  // ---- steps and recovery ---------------------------------------------------------------------------

  lemma MovedVariants(o: Outside, c: Case, recs: Recs, after: Recs)
    requires forall x :: x in c.targets.paths ==> x in c.base && x in recs && Variant(c.base[x], recs[x])
    requires Moved(o, recs, after, c.targets.paths, c.id)
    ensures forall x :: x in c.targets.paths ==> x in after && Variant(c.base[x], after[x])
  {
    hide TargetOk;
    forall x | x in c.targets.paths ensures x in after && Variant(c.base[x], after[x]) {
      VariantTrans(c.base[x], recs[x], after[x]);
    }
    hide Variant;
  }

  /** An approval is one write of the proposal, then the supersession of its targets. */
  lemma FirstWrite(w: World, docs: Docs, c: Case, lines: Lines, budget: nat) returns (docs1: Docs, recs1: Recs)
    requires Pending(w, docs, c) && budget > 0
    ensures c.path in docs && c.path in docs1 && docs1 == docs[c.path := docs1[c.path]] && Abs(w.o, docs1, recs1)
    ensures c.path in c.base && recs1 == c.base[c.path := Stepped(c.base[c.path], "active", lines.onProposal)]
    ensures Approve(w, docs, c.path, lines, budget) == SupersedeTargets(w, docs1, budget - 1, c.targets.paths, lines.onTarget)
    ensures ReadProposal(w, docs1, c.path) == Some(Proposal(c.id, "active", c.targets))
    ensures AllRecoverable(w, docs, c) ==> TargetsOk(w.o, c.base, c.targets.paths, c.id) && TargetsOk(w.o, recs1, c.targets.paths, c.id)
  {
    hide ReadProposal, Transitioned, Abs, HasBlock, JsonLayout, SupersedeTargets, ReadStatus, AllRecoverable, TargetOk, Extends, Faithful;
    VariantRefl(c.base[c.path]);
    ProposalReads(w, docs, c.base, c);
    AbsWrites(w, docs, c.base, c.path, "active", lines.onProposal);
    AppendKeepsBlock(c.base[c.path].body, c.json, lines.onProposal);
    recs1 := c.base[c.path := Stepped(c.base[c.path], "active", lines.onProposal)];
    docs1 := docs[c.path := Transitioned(w.o, docs[c.path], "active", lines.onProposal).value];
    ProposalReads(w, docs1, recs1, c);
    if AllRecoverable(w, docs, c) { BaseTargetsOk(w, docs, c); }
  }

  /** After its first write an approval, cut anywhere, leaves a decided state. */
  lemma ApprovalDecides(w: World, docs: Docs, c: Case, actor: string, at: string, op: string, budget: nat) returns (recs: Recs)
    requires Pending(w, docs, c) && AllRecoverable(w, docs, c) && budget > 0
    ensures Decided(w, Approve(w, docs, c.path, ApproveLines(c.id, actor, at, op), budget).docs, recs, c)
    ensures recs[c.path].status == "active"
  {
    hide Abs, HasBlock, JsonLayout, SupersedeTargets, Moved, ApproveLines, TargetOk, Contains, Variant, Approve, Faithful,
         Pending, AllRecoverable, ReadProposal, AppendToBody, SupersededBy;
    PendingIsReadable(w, docs, c);
    var lines, rest := ApproveLines(c.id, actor, at, op), "at " + at + " (op " + op + ", by " + actor + ")";
    var docs1, recs1 := FirstWrite(w, docs, c, lines, budget);
    ApprovalIsNoted(c.base[c.path].body, c.id, actor, at, op);
    AppendKeepsBlock(c.base[c.path].body, c.json, lines.onProposal);
    SteppedIsVariant(c.base[c.path], "active", lines.onProposal);
    TargetLine(c.id, actor, at, op);
    recs := SupersedeMoves(w, docs1, recs1, budget - 1, c.targets.paths, 0, c.id, rest);
    assert c.targets.paths[0..] == c.targets.paths;
    forall x | x in c.targets.paths ensures x in c.base && x in recs1 && Variant(c.base[x], recs1[x]) {
      VariantRefl(c.base[x]);
    }
    MovedVariants(w.o, c, recs1, recs);
    MovedKeeps(w.o, recs1, recs, c.targets.paths, c.id, c.path);
  }

  lemma TargetLine(id: string, actor: string, at: string, op: string)
    ensures ApproveLines(id, actor, at, op).onTarget == SupersededBy(id) + ("at " + at + " (op " + op + ", by " + actor + ")")
  {
  }

  lemma MovedKeeps(o: Outside, a: Recs, b: Recs, paths: seq<string>, id: string, x: string)
    requires Moved(o, a, b, paths, id) && x in a && x !in paths
    ensures b.Keys == a.Keys && x in b && b[x] == a[x]
  {
    hide TargetOk, Variant;
  }

  /** Before an approval: a target undo would deal with. */
  ghost predicate Recoverable(w: World, docs: Docs, x: string, id: string) {
    var status := ReadStatus(w, docs, x);
    status == Some("active") || (status == Some("superseded") && Includes(docs[x], SupersededBy(id)))
  }

  ghost predicate AllRecoverable(w: World, docs: Docs, c: Case) {
    forall x :: x in c.targets.paths ==> Recoverable(w, docs, x, c.id)
  }

  lemma BaseTargetsOk(w: World, docs: Docs, c: Case)
    requires Pending(w, docs, c) && AllRecoverable(w, docs, c)
    ensures TargetsOk(w.o, c.base, c.targets.paths, c.id)
  {
    hide ReadStatus, Includes, Doc, Faithful, HasBlock, JsonLayout, Writable, SupersededBy;
    forall x | x in c.targets.paths ensures x in c.base && TargetOk(w.o, c.base[x], c.id) {
      assert Recoverable(w, docs, x, c.id);
      AbsReads(w, docs, c.base, x);
    }
  }

  datatype Attempt = Attempt(actor: string, at: string, op: string, reason: string, budget: nat)

  function UndoOnce(w: World, docs: Docs, c: Case, a: Attempt): Run {
    Undo(w, docs, c.path, UndoLines(c.id, a.actor, a.at, a.op, a.reason), a.budget)
  }

  /** Undo attempts one after another, each on whatever the one before left. */
  function UndoMany(w: World, docs: Docs, c: Case, attempts: seq<Attempt>): Docs
    decreases |attempts|
  {
    if attempts == [] then docs else UndoMany(w, UndoOnce(w, docs, c, attempts[0]).docs, c, attempts[1..])
  }

  lemma ActiveProposalIncludes(w: World, docs: Docs, recs: Recs, c: Case)
    requires Faithful(w.o) && Decided(w, docs, recs, c)
    ensures c.path in docs
    ensures recs[c.path].status == "active" || recs[c.path].status == "superseded"
    ensures recs[c.path].status == "active" ==> Includes(docs[c.path], "approved by ")
    ensures recs[c.path].status == "superseded" ==> AlreadyUndone(docs[c.path])
  {
    hide Includes, Doc, TargetsOk, Variant, HasBlock, Writable, Faithful, Contains;
    var r := recs[c.path];
    if r.status == "active" {
      IncludesMarker(w.o, r, "approved by ");
    } else {
      IncludesMarker(w.o, r, "approval undone by ");
      IncludesMarker(w.o, r, "(op ");
    }
  }

  ghost predicate Readable(w: World, c: Case) {
    && Faithful(w.o) && JsonLayout(c.json) && w.targetsOf(c.json) == Some(c.targets)
    && |c.targets.ids| == |c.targets.paths| >= 2
    && c.path in c.base && c.base[c.path].kind == "proposal" && c.base[c.path].id == c.id && c.path !in c.targets.paths
  }

  /** One undo attempt keeps the state decided; with enough writes it leaves the proposal undone. */
  lemma UndoKeepsDecided(w: World, docs: Docs, recs: Recs, c: Case, a: Attempt) returns (after: Recs)
    requires Readable(w, c) && Decided(w, docs, recs, c)
    ensures var run := UndoOnce(w, docs, c, a);
            && Decided(w, run.docs, after, c)
            && (a.budget > |c.targets.paths| ==> run.outcome == Applied || run.outcome == Replay)
            && (run.outcome == Applied || run.outcome == Replay ==> after[c.path].status == "superseded")
            && run.outcome != Stale
  {
    hide ReadProposal, Transitioned, Abs, HasBlock, JsonLayout, RestoreTargets, Moved, UndoLines, TargetOk, Contains, Variant,
         Includes, AlreadyUndone, Faithful;
    var lines := UndoLines(c.id, a.actor, a.at, a.op, a.reason);
    ProposalReads(w, docs, recs, c);
    ActiveProposalIncludes(w, docs, recs, c);
    var r := recs[c.path];
    after := recs;
    if r.status == "active" {
      var paths := c.targets.paths;
      var mid := RestoreMoves(w, docs, recs, a.budget, paths, 0, c.id, lines.onTarget);
      assert paths[0..] == paths;
      MovedKeeps(w.o, recs, mid, paths, c.id, c.path);
      MovedVariants(w.o, c, recs, mid);
      var run := RestoreTargets(w, docs, a.budget, paths, c.id, lines.onTarget);
      after := mid;
      if run.outcome == Applied {
        AbsWrites(w, run.docs, mid, c.path, "superseded", lines.onProposal);
        if run.budget > 0 {
          var undone := r.(status := "superseded", body := AppendToBody(r.body, lines.onProposal));
          UndoIsNoted(r.body, c.id, a.actor, a.at, a.op, a.reason);
          AppendKeepsBlock(r.body, c.json, lines.onProposal);
          VariantTrans(c.base[c.path], r, undone);
          after := mid[c.path := undone];
        }
      }
    }
  }

  lemma {:induction false} UndoManyKeepsDecided(w: World, docs: Docs, recs: Recs, c: Case, attempts: seq<Attempt>) returns (after: Recs)
    requires Readable(w, c) && Decided(w, docs, recs, c)
    ensures Decided(w, UndoMany(w, docs, c, attempts), after, c)
    decreases |attempts|
  {
    hide Decided, Readable, UndoOnce;
    after := recs;
    if attempts != [] {
      var next := UndoKeepsDecided(w, docs, recs, c, attempts[0]);
      after := UndoManyKeepsDecided(w, UndoOnce(w, docs, c, attempts[0]).docs, next, c, attempts[1..]);
    }
  }

  /** Visible again: the original header with status active, and the original body with lines appended. */
  ghost predicate Restored(w: World, docs: Docs, original: Record, path: string) {
    path in docs && exists body: string ::
      docs[path] == Doc(w.o, original.(status := "active", body := body)) && Extends(original.body, body) && TrimNewlines(original.body) <= body
  }

  lemma RestoredNow(w: World, docs: Docs, recs: Recs, original: Record, path: string)
    requires Abs(w.o, docs, recs) && path in recs && Variant(original, recs[path])
    requires recs[path].status == "active"
    ensures Restored(w, docs, original, path)
  {
    var body := recs[path].body;
    var lines: seq<string> :| body == Extended(original.body, lines);
    ExtensionKeepsTheBody(original.body, lines);
    assert recs[path] == original.(status := "active", body := body);
    hide Doc, Extends, Writable;
    assert docs[path] == Doc(w.o, original.(status := "active", body := body));
  }

  lemma UndoneMeansRestored(w: World, docs: Docs, recs: Recs, c: Case)
    requires Decided(w, docs, recs, c) && recs[c.path].status == "superseded"
    ensures forall x :: x in c.targets.paths ==> x in c.base && Restored(w, docs, c.base[x], x)
  {
    hide Abs, Variant, TargetsOk, HasBlock, Contains, Restored;
    forall x | x in c.targets.paths ensures Restored(w, docs, c.base[x], x) {
      RestoredNow(w, docs, recs, c.base[x], x);
    }
  }

  /**
   * Undo is the recovery path: after an approval cut anywhere past its first write, then any number
   * of undo attempts cut anywhere, one undo that may write enough always succeeds, and leaves every
   * target active with its original header and its original body extended by lines, and the
   * proposal superseded.
   */
  lemma UndoRecoversFromEveryCrash(w: World, docs: Docs, c: Case, actor: string, at: string, op: string, approved: nat,
                                   attempts: seq<Attempt>, last: Attempt)
    requires Pending(w, docs, c) && AllRecoverable(w, docs, c) && approved > 0 && last.budget > |c.targets.paths|
    ensures var crashed := Approve(w, docs, c.path, ApproveLines(c.id, actor, at, op), approved).docs;
            var run := UndoOnce(w, UndoMany(w, crashed, c, attempts), c, last);
            && (run.outcome == Applied || run.outcome == Replay)
            && ReadStatus(w, run.docs, c.path) == Some("superseded")
            && forall x :: x in c.targets.paths ==> x in c.base && Restored(w, run.docs, c.base[x], x)
  {
    var lines := ApproveLines(c.id, actor, at, op);
    var recs := ApprovalDecides(w, docs, c, actor, at, op, approved);
    hide Pending, Approve, ReadStatus, Restored, Decided, Undo, ApproveLines;
    var crashed := Approve(w, docs, c.path, lines, approved).docs;
    var recs2 := UndoManyKeepsDecided(w, crashed, recs, c, attempts);
    var docs2 := UndoMany(w, crashed, c, attempts);
    var recs3 := UndoKeepsDecided(w, docs2, recs2, c, last);
    var run := UndoOnce(w, docs2, c, last);
    DecidedReads(w, run.docs, recs3, c);
    UndoneMeansRestored(w, run.docs, recs3, c);
  }

  lemma DecidedReads(w: World, docs: Docs, recs: Recs, c: Case)
    requires Readable(w, c) && Decided(w, docs, recs, c)
    ensures c.path in recs && ReadStatus(w, docs, c.path) == Some(recs[c.path].status)
  {
    hide TargetsOk, ProposalOk, Variant, ReadStatus, Abs, Faithful, JsonLayout;
    AbsReads(w, docs, recs, c.path);
  }

  // ---- targets no undo deals with ------------------------------------------------------------------

  ghost predicate Same(before: Docs, after: Docs, x: string) {
    (x in after <==> x in before) && (x in before ==> after[x] == before[x])
  }

  lemma SameReads(w: World, before: Docs, after: Docs, x: string, id: string)
    requires Same(before, after, x)
    ensures ReadStatus(w, after, x) == ReadStatus(w, before, x)
    ensures Recoverable(w, after, x, id) <==> Recoverable(w, before, x, id)
  {
    hide Parse, Includes, SupersededBy;
  }

  /** Superseding writes active targets only, and does not finish over one that is not active. */
  lemma {:induction false} SupersedeLeaves(w: World, docs: Docs, budget: nat, paths: seq<string>, line: string, x: string)
    requires x !in paths || ReadStatus(w, docs, x) != Some("active")
    ensures var run := SupersedeTargets(w, docs, budget, paths, line);
            Same(docs, run.docs, x) && (x in paths ==> run.outcome == Stale || run.outcome == Died)
    decreases |paths|
  {
    hide ReadStatus, Transitioned;
    if paths != [] && ReadStatus(w, docs, paths[0]) == Some("active") {
      ReadIsThere(w, docs, paths[0]);
      var next := Write(docs, budget, paths[0], Transitioned(w.o, docs[paths[0]], "superseded", line));
      if next.outcome == Applied {
        SameReads(w, docs, next.docs, x, "");
        SupersedeLeaves(w, next.docs, next.budget, paths[1..], line, x);
      }
    }
  }

  lemma ReadIsThere(w: World, docs: Docs, x: string)
    requires ReadStatus(w, docs, x).Some?
    ensures x in docs
  {
  }

  /** Restoring writes marked targets only, and does not finish over one it refuses. */
  lemma {:induction false} RestoreLeaves(w: World, docs: Docs, budget: nat, paths: seq<string>, id: string, line: string, x: string)
    requires x !in paths || !Recoverable(w, docs, x, id)
    ensures var run := RestoreTargets(w, docs, budget, paths, id, line);
            Same(docs, run.docs, x) && (x in paths ==> run.outcome == Stale || run.outcome == Died)
    decreases |paths|
  {
    hide ReadStatus, Transitioned, Includes, SupersededBy;
    if paths != [] && Recoverable(w, docs, paths[0], id) {
      ReadIsThere(w, docs, paths[0]);
      if ReadStatus(w, docs, paths[0]) == Some("active") {
        RestoreLeaves(w, docs, budget, paths[1..], id, line, x);
      } else {
        var next := Write(docs, budget, paths[0], Transitioned(w.o, docs[paths[0]], "active", line));
        if next.outcome == Applied {
          SameReads(w, docs, next.docs, x, id);
          RestoreLeaves(w, next.docs, next.budget, paths[1..], id, line, x);
        }
      }
    }
  }

  /** The proposal is active, and one of its targets is neither active nor superseded with its mark. */
  ghost predicate Stuck(w: World, docs: Docs, c: Case, x: string) {
    && ReadProposal(w, docs, c.path) == Some(Proposal(c.id, "active", c.targets))
    && c.path !in c.targets.paths && x in c.targets.paths && !Recoverable(w, docs, x, c.id)
  }

  lemma UndoStaysStuck(w: World, docs: Docs, c: Case, x: string, a: Attempt)
    requires Stuck(w, docs, c, x)
    ensures var run := UndoOnce(w, docs, c, a);
            Stuck(w, run.docs, c, x) && Same(docs, run.docs, x) && (run.outcome == Stale || run.outcome == Died)
  {
    hide ReadProposal, Transitioned, RestoreTargets, Recoverable, Includes, UndoLines;
    var lines := UndoLines(c.id, a.actor, a.at, a.op, a.reason);
    RestoreLeaves(w, docs, a.budget, c.targets.paths, c.id, lines.onTarget, x);
    RestoreLeaves(w, docs, a.budget, c.targets.paths, c.id, lines.onTarget, c.path);
    var run := UndoOnce(w, docs, c, a);
    SameReads(w, docs, run.docs, x, c.id);
    SameProposal(w, docs, run.docs, c.path);
  }

  lemma SameProposal(w: World, before: Docs, after: Docs, path: string)
    requires Same(before, after, path)
    ensures ReadProposal(w, after, path) == ReadProposal(w, before, path)
  {
    hide Parse, ParseDataBlock;
  }

  lemma {:induction false} UndoManyStaysStuck(w: World, docs: Docs, c: Case, x: string, attempts: seq<Attempt>)
    requires Stuck(w, docs, c, x)
    ensures Stuck(w, UndoMany(w, docs, c, attempts), c, x) && Same(docs, UndoMany(w, docs, c, attempts), x)
    decreases |attempts|
  {
    hide Stuck, UndoOnce;
    if attempts != [] {
      UndoStaysStuck(w, docs, c, x, attempts[0]);
      UndoManyStaysStuck(w, UndoOnce(w, docs, c, attempts[0]).docs, c, x, attempts[1..]);
    }
  }

  lemma ApprovalSticks(w: World, docs: Docs, c: Case, lines: Lines, budget: nat, x: string)
    requires Pending(w, docs, c) && budget > 0 && x in c.targets.paths && !Recoverable(w, docs, x, c.id)
    ensures var run := Approve(w, docs, c.path, lines, budget);
            Stuck(w, run.docs, c, x) && Same(docs, run.docs, x) && (run.outcome == Stale || run.outcome == Died)
  {
    hide Pending, Approve, ReadProposal, SupersedeTargets, ReadStatus, Recoverable, Abs;
    PendingIsReadable(w, docs, c);
    var docs1, _ := FirstWrite(w, docs, c, lines, budget);
    var run := SupersedeTargets(w, docs1, budget - 1, c.targets.paths, lines.onTarget);
    SameReads(w, docs, docs1, x, c.id);
    NotActive(w, docs1, x, c.id);
    SupersedeLeaves(w, docs1, budget - 1, c.targets.paths, lines.onTarget, x);
    SupersedeLeaves(w, docs1, budget - 1, c.targets.paths, lines.onTarget, c.path);
    SameReads(w, docs1, run.docs, x, c.id);
    SameProposal(w, docs1, run.docs, c.path);
  }

  lemma NotActive(w: World, docs: Docs, x: string, id: string)
    requires !Recoverable(w, docs, x, id)
    ensures ReadStatus(w, docs, x) != Some("active")
  {
    hide ReadStatus, Includes, SupersededBy;
  }

  /**
   * The approval looks at no target before its first write. With a target it cannot supersede and undo
   * cannot restore (missing, unreadable, or superseded by another proposal), it leaves the proposal
   * active, stops as stale unless the process dies first, and no undo ever finishes.
   */
  lemma ForeignTargetIsNeverUndone(w: World, docs: Docs, c: Case, x: string, actor: string, at: string, op: string, approved: nat,
                                   attempts: seq<Attempt>, last: Attempt)
    requires Pending(w, docs, c) && approved > 0 && x in c.targets.paths && !Recoverable(w, docs, x, c.id)
    ensures var run1 := Approve(w, docs, c.path, ApproveLines(c.id, actor, at, op), approved);
            var run := UndoOnce(w, UndoMany(w, run1.docs, c, attempts), c, last);
            && (run1.outcome == Stale || run1.outcome == Died)
            && (run.outcome == Stale || run.outcome == Died)
            && ReadProposal(w, run.docs, c.path) == Some(Proposal(c.id, "active", c.targets))
            && Same(docs, run.docs, x)
  {
    hide Pending, Approve, UndoOnce, Recoverable, ReadProposal, ApproveLines;
    var crashed := Approve(w, docs, c.path, ApproveLines(c.id, actor, at, op), approved).docs;
    ApprovalSticks(w, docs, c, ApproveLines(c.id, actor, at, op), approved, x);
    UndoManyStaysStuck(w, crashed, c, x, attempts);
    UndoStaysStuck(w, UndoMany(w, crashed, c, attempts), c, x, last);
  }

  /** A target superseded in full is not written again. */
  lemma {:induction false} AppliedSupersedes(w: World, docs: Docs, recs: Recs, budget: nat, all: seq<string>, i: nat, id: string, rest: string, x: string)
    requires Faithful(w.o) && Abs(w.o, docs, recs) && TargetsOk(w.o, recs, all, id) && i <= |all| && x in all[i..]
    requires SupersedeTargets(w, docs, budget, all[i..], SupersededBy(id) + rest).outcome == Applied
    ensures ReadStatus(w, SupersedeTargets(w, docs, budget, all[i..], SupersededBy(id) + rest).docs, x) == Some("superseded")
    decreases |all| - i
  {
    hide Abs, Moved, TargetOk, TargetsOk, ReadStatus, Transitioned, Contains, SupersededBy, Faithful;
    var line, p := SupersededBy(id) + rest, all[i];
    TargetAt(w.o, recs, all, id, i);
    assert all[i..][0] == p && all[i..][1..] == all[i + 1..];
    AbsReads(w, docs, recs, p);
    LinesMark(id, rest);
    var next := TargetWrite(w, docs, recs, p, "superseded", line, all, id);
    var docs' := docs[p := Transitioned(w.o, docs[p], "superseded", line).value];
    if x in all[i + 1..] {
      AppliedSupersedes(w, docs', next, budget - 1, all, i + 1, id, rest, x);
    } else {
      AbsReads(w, docs', next, x);
      SupersedeLeaves(w, docs', budget - 1, all[i + 1..], line, x);
      SameReads(w, docs', SupersedeTargets(w, docs', budget - 1, all[i + 1..], line).docs, x, id);
    }
  }

  /** An approval that was applied left every target superseded. */
  lemma AppliedMeansSuperseded(w: World, docs: Docs, c: Case, actor: string, at: string, op: string, budget: nat, x: string)
    requires Pending(w, docs, c) && x in c.targets.paths
    requires Approve(w, docs, c.path, ApproveLines(c.id, actor, at, op), budget).outcome == Applied
    ensures budget > 0 && AllRecoverable(w, docs, c)
    ensures ReadStatus(w, Approve(w, docs, c.path, ApproveLines(c.id, actor, at, op), budget).docs, x) == Some("superseded")
  {
    hide Abs, SupersedeTargets, ApproveLines, TargetOk, Recoverable, ReadStatus, ReadProposal, SupersededBy, Pending, TargetsOk, Approve;
    PendingIsReadable(w, docs, c);
    var lines := ApproveLines(c.id, actor, at, op);
    NothingWithoutBudget(w, docs, c, lines, budget);
    if !AllRecoverable(w, docs, c) {
      var y :| y in c.targets.paths && !Recoverable(w, docs, y, c.id);
      ApprovalSticks(w, docs, c, lines, budget, y);
    }
    var docs1, recs1 := FirstWrite(w, docs, c, lines, budget);
    TargetLine(c.id, actor, at, op);
    assert c.targets.paths[0..] == c.targets.paths;
    AppliedSupersedes(w, docs1, recs1, budget - 1, c.targets.paths, 0, c.id, "at " + at + " (op " + op + ", by " + actor + ")", x);
  }

  lemma NothingWithoutBudget(w: World, docs: Docs, c: Case, lines: Lines, budget: nat)
    requires Approve(w, docs, c.path, lines, budget).outcome == Applied
    ensures budget > 0
  {
    hide ReadProposal, Transitioned, SupersedeTargets, AllMarked;
  }

  /** The document does not bear the proposal's mark. */
  ghost predicate Unmarked(docs: Docs, x: string, id: string) {
    x in docs ==> !Includes(docs[x], SupersededBy(id))
  }

  /**
   * So of two proposals over one record only the first can be taken back: with the first approved in
   * full, approving the second makes it active for good, unless the record also bears its mark.
   */
  lemma SecondProposalIsNeverUndone(w: World, docs: Docs, first: Case, second: Case, x: string, actor: string, at: string, op: string,
                                    budget: nat, approved: nat, attempts: seq<Attempt>, last: Attempt)
    requires Pending(w, docs, first) && x in first.targets.paths && x in second.targets.paths && approved > 0
    requires var run := Approve(w, docs, first.path, ApproveLines(first.id, actor, at, op), budget);
             run.outcome == Applied && Pending(w, run.docs, second) && Unmarked(run.docs, x, second.id)
    ensures var run := Approve(w, docs, first.path, ApproveLines(first.id, actor, at, op), budget);
            var both := Approve(w, run.docs, second.path, ApproveLines(second.id, actor, at, op), approved);
            var undo := UndoOnce(w, UndoMany(w, both.docs, second, attempts), second, last);
            && (both.outcome == Stale || both.outcome == Died) && (undo.outcome == Stale || undo.outcome == Died)
            && ReadProposal(w, undo.docs, second.path) == Some(Proposal(second.id, "active", second.targets))
  {
    hide Pending, Approve, UndoOnce, UndoMany, ReadProposal, Unmarked, Recoverable, ApproveLines;
    SupersededForAnother(w, docs, first, second, x, actor, at, op, budget);
    var docs1 := Approve(w, docs, first.path, ApproveLines(first.id, actor, at, op), budget).docs;
    ForeignTargetIsNeverUndone(w, docs1, second, x, actor, at, op, approved, attempts, last);
  }

  lemma SupersededForAnother(w: World, docs: Docs, first: Case, second: Case, x: string, actor: string, at: string, op: string, budget: nat)
    requires Pending(w, docs, first) && x in first.targets.paths
    requires var run := Approve(w, docs, first.path, ApproveLines(first.id, actor, at, op), budget);
             run.outcome == Applied && Pending(w, run.docs, second) && Unmarked(run.docs, x, second.id)
    ensures !Recoverable(w, Approve(w, docs, first.path, ApproveLines(first.id, actor, at, op), budget).docs, x, second.id)
  {
    hide Pending, Approve, ReadStatus, Includes, ApproveLines, SupersededBy;
    AppliedMeansSuperseded(w, docs, first, actor, at, op, budget, x);
    ReadIsThere(w, Approve(w, docs, first.path, ApproveLines(first.id, actor, at, op), budget).docs, x);
  }

  /**
   * From an approval cut anywhere past its first write, any cut undo attempts and one that may write
   * enough, undo succeeds exactly when every target was, before the approval, active or superseded
   * with this proposal's mark.
   */
  lemma UndoRecoversIff(w: World, docs: Docs, c: Case, actor: string, at: string, op: string, approved: nat,
                        attempts: seq<Attempt>, last: Attempt)
    requires Pending(w, docs, c) && approved > 0 && last.budget > |c.targets.paths|
    ensures var crashed := Approve(w, docs, c.path, ApproveLines(c.id, actor, at, op), approved).docs;
            var outcome := UndoOnce(w, UndoMany(w, crashed, c, attempts), c, last).outcome;
            outcome == Applied || outcome == Replay <==> forall x :: x in c.targets.paths ==> Recoverable(w, docs, x, c.id)
  {
    hide Pending, Approve, UndoOnce, Recoverable, ReadProposal, ReadStatus, Restored, ApproveLines;
    if AllRecoverable(w, docs, c) {
      UndoRecoversFromEveryCrash(w, docs, c, actor, at, op, approved, attempts, last);
    } else {
      var x :| x in c.targets.paths && !Recoverable(w, docs, x, c.id);
      ForeignTargetIsNeverUndone(w, docs, c, x, actor, at, op, approved, attempts, last);
    }
  }

  /**
   * Running a cut approval again is not a recovery path: it is a replay exactly when every target
   * already carries this proposal's mark, and stale otherwise.
   */
  lemma ApproveAgainIff(w: World, docs: Docs, recs: Recs, c: Case, lines: Lines, budget: nat)
    requires Readable(w, c) && Decided(w, docs, recs, c) && recs[c.path].status == "active"
    ensures var run := Approve(w, docs, c.path, lines, budget);
            && run.docs == docs && run.budget == budget
            && run.outcome == (if forall x :: x in c.targets.paths ==> x in docs && Contains(docs[x], SupersededBy(c.id)) then Replay else Stale)
  {
    hide ReadProposal, Includes, Contains, ReadStatus, Abs, Variant, TargetOk, HasBlock, JsonLayout, Faithful;
    ProposalReads(w, docs, recs, c);
    forall x | x in c.targets.paths
      ensures x in docs && ReadStatus(w, docs, x).Some? && (Includes(docs[x], SupersededBy(c.id)) <==> Contains(docs[x], SupersededBy(c.id)))
    {
      AbsReads(w, docs, recs, x);
      IncludesIff(docs[x], SupersededBy(c.id));
    }
    hide SupersededBy;
  }

  ghost predicate Distinct(paths: seq<string>) {
    forall i, k :: 0 <= i < k < |paths| ==> paths[i] != paths[k]
  }

  ghost predicate ActiveFrom(recs: Recs, all: seq<string>, n: nat) {
    forall k :: n <= k < |all| ==> all[k] in recs && recs[all[k]].status == "active"
  }

  lemma ActiveFirst(recs: Recs, all: seq<string>, i: nat)
    requires ActiveFrom(recs, all, i) && i < |all|
    ensures all[i] in recs && recs[all[i]].status == "active"
  {
  }

  lemma ActiveFromNext(recs: Recs, next: Recs, all: seq<string>, i: nat)
    requires Distinct(all) && i < |all| && ActiveFrom(recs, all, i)
    requires forall x :: x in recs && x != all[i] ==> x in next && next[x] == recs[x]
    ensures ActiveFrom(next, all, i + 1)
  {
  }

  /** Over distinct active targets superseding stops at the budget only, before it wrote the last one. */
  lemma {:induction false} SupersedeIsCut(w: World, docs: Docs, recs: Recs, budget: nat, all: seq<string>, i: nat, id: string, rest: string)
    requires Faithful(w.o) && Abs(w.o, docs, recs) && TargetsOk(w.o, recs, all, id) && i <= |all|
    requires Distinct(all) && ActiveFrom(recs, all, i)
    ensures var run := SupersedeTargets(w, docs, budget, all[i..], SupersededBy(id) + rest);
            if budget >= |all| - i then run.outcome == Applied else Same(docs, run.docs, all[|all| - 1])
    decreases |all| - i
  {
    hide Abs, Moved, TargetOk, TargetsOk, ReadStatus, Transitioned, Contains, SupersededBy, Distinct, ActiveFrom, Faithful;
    if i < |all| {
      var line, p := SupersededBy(id) + rest, all[i];
      TargetAt(w.o, recs, all, id, i);
      ActiveFirst(recs, all, i);
      assert all[i..][0] == p && all[i..][1..] == all[i + 1..];
      AbsReads(w, docs, recs, p);
      LinesMark(id, rest);
      var next := TargetWrite(w, docs, recs, p, "superseded", line, all, id);
      if budget > 0 {
        ActiveFromNext(recs, next, all, i);
        SupersedeIsCut(w, docs[p := Transitioned(w.o, docs[p], "superseded", line).value], next, budget - 1, all, i + 1, id, rest);
        if i + 1 < |all| { LastIsAnother(all, i); }
      }
    }
  }

  lemma LastIsAnother(all: seq<string>, i: nat)
    requires Distinct(all) && i + 1 < |all|
    ensures all[i] != all[|all| - 1]
  {
  }

  /** Every target is active and bears no mark of this proposal. */
  ghost predicate Untouched(w: World, docs: Docs, c: Case) {
    forall x :: x in c.targets.paths ==> ReadStatus(w, docs, x) == Some("active") && Unmarked(docs, x, c.id)
  }

  lemma UntouchedIsRecoverable(w: World, docs: Docs, c: Case)
    requires Untouched(w, docs, c)
    ensures AllRecoverable(w, docs, c)
  {
    hide ReadStatus, Unmarked, Includes, SupersededBy;
  }

  lemma UntouchedIsActive(w: World, docs: Docs, c: Case)
    requires Pending(w, docs, c) && Untouched(w, docs, c)
    ensures ActiveFrom(c.base, c.targets.paths, 0)
  {
    hide ReadStatus, Unmarked, Abs, Faithful, HasBlock, JsonLayout;
    var all := c.targets.paths;
    forall k | 0 <= k < |all| ensures all[k] in c.base && c.base[all[k]].status == "active" {
      assert all[k] in all;
      AbsReads(w, docs, c.base, all[k]);
    }
  }

  lemma ApprovalIsCut(w: World, docs: Docs, c: Case, actor: string, at: string, op: string, budget: nat)
    requires Pending(w, docs, c) && budget > 0 && Distinct(c.targets.paths) && Untouched(w, docs, c)
    ensures var run := Approve(w, docs, c.path, ApproveLines(c.id, actor, at, op), budget);
            if budget > |c.targets.paths| then run.outcome == Applied
            else Same(docs, run.docs, c.targets.paths[|c.targets.paths| - 1])
  {
    hide Abs, SupersedeTargets, ApproveLines, TargetOk, Untouched, Distinct, Approve, Recoverable, ReadProposal, Pending, TargetsOk, ReadStatus;
    var lines, all := ApproveLines(c.id, actor, at, op), c.targets.paths;
    PendingIsReadable(w, docs, c);
    UntouchedIsRecoverable(w, docs, c);
    UntouchedIsActive(w, docs, c);
    var docs1, recs1 := FirstWrite(w, docs, c, lines, budget);
    TargetLine(c.id, actor, at, op);
    assert all[0..] == all && all[|all| - 1] in all;
    SupersedeIsCut(w, docs1, recs1, budget - 1, all, 0, c.id, "at " + at + " (op " + op + ", by " + actor + ")");
  }

  /**
   * For distinct targets that were active and unmarked, the second approval tells how far the first
   * came: a replay exactly when it made all its writes, one for the proposal and one for each target.
   */
  lemma ReplayIffEveryWriteWasMade(w: World, docs: Docs, c: Case, actor: string, at: string, op: string, approved: nat,
                                   lines: Lines, budget: nat)
    requires Pending(w, docs, c) && approved > 0 && Distinct(c.targets.paths) && Untouched(w, docs, c)
    ensures var crashed := Approve(w, docs, c.path, ApproveLines(c.id, actor, at, op), approved).docs;
            Approve(w, crashed, c.path, lines, budget) == Run(crashed, budget, if approved > |c.targets.paths| then Replay else Stale)
  {
    hide Pending, Readable, Approve, ReadStatus, Decided, ApproveLines, Distinct, Untouched, SupersededBy, Contains;
    var crashed, all := Approve(w, docs, c.path, ApproveLines(c.id, actor, at, op), approved).docs, c.targets.paths;
    PendingIsReadable(w, docs, c);
    UntouchedIsRecoverable(w, docs, c);
    var recs := ApprovalDecides(w, docs, c, actor, at, op, approved);
    ApproveAgainIff(w, crashed, recs, c, lines, budget);
    ApprovalIsCut(w, docs, c, actor, at, op, approved);
    if approved > |all| {
      forall x | x in all ensures x in crashed && Contains(crashed[x], SupersededBy(c.id)) {
        AppliedMeansSuperseded(w, docs, c, actor, at, op, approved, x);
        SupersededBearsTheMark(w, crashed, recs, c, x);
      }
    } else {
      LastStaysUnmarked(w, docs, crashed, c);
    }
  }

  lemma PendingIsReadable(w: World, docs: Docs, c: Case)
    requires Pending(w, docs, c)
    ensures Readable(w, c) && |c.targets.paths| >= 2 && HasBlock(c.base[c.path].body, c.json)
  {
    hide Faithful, JsonLayout, Abs, HasBlock, ReadStatus;
  }

  lemma SupersededBearsTheMark(w: World, docs: Docs, recs: Recs, c: Case, x: string)
    requires Readable(w, c) && Decided(w, docs, recs, c) && x in c.targets.paths && ReadStatus(w, docs, x) == Some("superseded")
    ensures x in docs && Contains(docs[x], SupersededBy(c.id))
  {
    hide ReadStatus, ProposalOk, Variant, Includes, Contains, Doc, SupersededBy, JsonLayout, Faithful, Writable;
    AbsReads(w, docs, recs, x);
    IncludesIff(docs[x], SupersededBy(c.id));
  }

  lemma LastStaysUnmarked(w: World, docs: Docs, after: Docs, c: Case)
    requires Untouched(w, docs, c) && |c.targets.paths| >= 2 && Same(docs, after, c.targets.paths[|c.targets.paths| - 1])
    ensures exists x :: x in c.targets.paths && x in after && !Contains(after[x], SupersededBy(c.id))
  {
    hide ReadStatus, Includes, Contains, SupersededBy;
    var x := c.targets.paths[|c.targets.paths| - 1];
    assert x in c.targets.paths;
    ReadIsThere(w, docs, x);
    IncludesIff(docs[x], SupersededBy(c.id));
  }
}
