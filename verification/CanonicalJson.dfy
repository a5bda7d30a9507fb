/**
 * Canonical JSON text (grammar: sections 3 to 7 of RFC 8259): object keys sorted recursively, arrays in
 * order. It is the plain text of a normal form that identifies exactly the equal values.
 */
module CanonicalJson {
  import opened Common

  // ---- values ------------------------------------------------------------------------

  datatype Keyed<+T> = Keyed(key: string, item: T)

  /**
   * A value of the host language that JSON text is asked of. `Number` carries the token it prints
   * as; `Undefined` and `NotFinite` are not JSON and print as null.
   */
  datatype Value =
    | Null
    | Undefined
    | NotFinite
    | Bool(b: bool)
    | Number(token: string)
    | Str(s: string)
    | Arr(items: seq<Value>)
    | Obj(fields: seq<Keyed<Value>>)

  predicate NumberChar(c: char) {
    '0' <= c <= '9' || c == '-' || c == '+' || c == '.' || c == 'e' || c == 'E'
  }

  predicate NumberToken(t: string) {
    t != "" && ('0' <= t[0] <= '9' || t[0] == '-') && forall c :: c in t ==> NumberChar(c)
  }

  ghost predicate DistinctKeys(fs: seq<Keyed<Value>>) {
    forall i, j :: 0 <= i < j < |fs| ==> fs[i].key != fs[j].key
  }

  /** Number tokens are tokens, and no object has a key twice. */
  ghost predicate Proper(v: Value) {
    match v
    case Number(t) => NumberToken(t)
    case Arr(items) => forall i :: 0 <= i < |items| ==> Proper(items[i])
    case Obj(fields) => DistinctKeys(fields) && forall i :: 0 <= i < |fields| ==> Proper(fields[i].item)
    case _ => true
  }

  predicate NullLike(v: Value) {
    v.Null? || v.Undefined? || v.NotFinite?
  }

  /** Equal as JSON values: object key order is no part of a value. */
  ghost predicate Same(a: Value, b: Value)
    decreases a, 2
  {
    if NullLike(a) || NullLike(b) then NullLike(a) && NullLike(b)
    else if a.Arr? && b.Arr? then
      |a.items| == |b.items| && forall i :: 0 <= i < |a.items| ==> Same(a.items[i], b.items[i])
    else if a.Obj? && b.Obj? then
      && (forall i: nat :: i < |a.fields| ==> InRight(a, b, i))
      && (forall j: nat :: j < |b.fields| ==> InLeft(a, b, j))
    else a == b
  }

  ghost predicate InRight(a: Value, b: Value, i: nat)
    requires a.Obj? && b.Obj? && i < |a.fields|
    decreases a, 1
  {
    exists j: nat :: j < |b.fields| && Match(a, b, i, j)
  }

  ghost predicate InLeft(a: Value, b: Value, j: nat)
    requires a.Obj? && b.Obj? && j < |b.fields|
    decreases a, 1
  {
    exists i: nat :: i < |a.fields| && Match(a, b, i, j)
  }

  /** Field `i` of one object is field `j` of the other. */
  ghost predicate Match(a: Value, b: Value, i: nat, j: nat)
    requires a.Obj? && b.Obj? && i < |a.fields| && j < |b.fields|
    decreases a, 0
  {
    b.fields[j].key == a.fields[i].key && Same(a.fields[i].item, b.fields[j].item)
  }

  // ---- key order ---------------------------------------------------------------------

  /** The place of a character in UTF-16 order: the private-use block sorts after all pairs. */
  function Rank(c: char): int {
    var n := c as int;
    if 0xE000 <= n < 0x10000 then n + 0x110000 else n
  }

  predicate Less(a: string, b: string) {
    b != "" && (a == "" || Rank(a[0]) < Rank(b[0]) || (a[0] == b[0] && Less(a[1..], b[1..])))
  }

  lemma {:induction false} LessTotal(a: string, b: string)
    ensures a == b || Less(a, b) || Less(b, a)
  {
    if a != "" && b != "" && a[0] == b[0] {
      LessTotal(a[1..], b[1..]);
      assert a == [a[0]] + a[1..] && b == [b[0]] + b[1..];
    }
  }

  lemma {:induction false} LessTrans(a: string, b: string, c: string)
    requires Less(a, b) && Less(b, c)
    ensures Less(a, c)
  {
    if a != "" && a[0] == b[0] && b[0] == c[0] { LessTrans(a[1..], b[1..], c[1..]); }
  }

  lemma {:induction false} LessIrreflexive(a: string)
    ensures !Less(a, a)
  {
    if a != "" { LessIrreflexive(a[1..]); }
  }

  function InsertKey<T>(sorted: seq<Keyed<T>>, f: Keyed<T>): seq<Keyed<T>> {
    if sorted == [] || Less(f.key, sorted[0].key) then [f] + sorted
    else [sorted[0]] + InsertKey(sorted[1..], f)
  }

  function SortKeys<T>(fs: seq<Keyed<T>>): seq<Keyed<T>> {
    if fs == [] then [] else InsertKey(SortKeys(fs[1..]), fs[0])
  }

  ghost predicate KeySorted(fs: seq<Keyed<Value>>) {
    forall i, j :: 0 <= i < j < |fs| ==> Less(fs[i].key, fs[j].key)
  }

  lemma {:induction false} InsertKeyMembers(sorted: seq<Keyed<Value>>, f: Keyed<Value>)
    ensures forall x :: x in InsertKey(sorted, f) <==> x in sorted || x == f
  {
    if !(sorted == [] || Less(f.key, sorted[0].key)) {
      InsertKeyMembers(sorted[1..], f);
      assert sorted == [sorted[0]] + sorted[1..];
    }
  }

  lemma {:induction false} InsertKeySorted(sorted: seq<Keyed<Value>>, f: Keyed<Value>)
    requires KeySorted(sorted) && forall x :: x in sorted ==> x.key != f.key
    ensures KeySorted(InsertKey(sorted, f))
  {
    if sorted == [] {
    } else if Less(f.key, sorted[0].key) {
      forall j | 0 <= j < |sorted| ensures Less(f.key, sorted[j].key) {
        if j > 0 { LessTrans(f.key, sorted[0].key, sorted[j].key); }
      }
    } else {
      assert sorted[0] in sorted;
      LessTotal(f.key, sorted[0].key);
      assert forall x :: x in sorted[1..] ==> x in sorted;
      InsertKeySorted(sorted[1..], f);
      InsertKeyMembers(sorted[1..], f);
      var r := InsertKey(sorted[1..], f);
      forall j | 0 <= j < |r| ensures Less(sorted[0].key, r[j].key) {
        assert r[j] in r;
        if r[j] in sorted[1..] {
          var k :| 0 <= k < |sorted[1..]| && sorted[1..][k] == r[j];
          assert sorted[k + 1] == r[j];
        } else {
          assert r[j] == f;
        }
      }
    }
  }

  lemma {:induction false} SortKeysSorts(fs: seq<Keyed<Value>>)
    requires DistinctKeys(fs)
    ensures KeySorted(SortKeys(fs))
    ensures forall x :: x in SortKeys(fs) <==> x in fs
  {
    if fs != [] {
      SortKeysSorts(fs[1..]);
      InsertKeyMembers(SortKeys(fs[1..]), fs[0]);
      var rest := SortKeys(fs[1..]);
      forall i | 0 <= i < |rest| ensures rest[i].key != fs[0].key {
        assert rest[i] in rest;
        assert rest[i] in fs[1..];
      }
      InsertKeySorted(SortKeys(fs[1..]), fs[0]);
      assert fs == [fs[0]] + fs[1..];
    }
  }

  lemma NotEmpty(b: seq<Keyed<Value>>)
    requires b != []
    ensures exists x :: x in b
  {
    assert b[0] in b;
  }

  /** A strictly sorted list is determined by its members. */
  lemma {:induction false} SortedListsAgree(a: seq<Keyed<Value>>, b: seq<Keyed<Value>>)
    requires KeySorted(a) && KeySorted(b) && forall x :: x in a <==> x in b
    ensures a == b
  {
    if a == [] {
      if b != [] { NotEmpty(b); }
    } else {
      assert a[0] in a;
      assert b != [] && b[0] in b;
      if a[0] != b[0] {
        LessTrans(a[0].key, b[0].key, a[0].key);
        LessIrreflexive(a[0].key);
      }
      SortedTail(a);
      SortedTail(b);
      SortedListsAgree(a[1..], b[1..]);
      assert a == [a[0]] + a[1..] && b == [b[0]] + b[1..];
    }
  }

  lemma SortedTail(a: seq<Keyed<Value>>)
    requires KeySorted(a) && a != []
    ensures KeySorted(a[1..])
    ensures forall x :: x in a[1..] <==> x in a && x != a[0]
  {
    forall x | x in a[1..] ensures x != a[0] {
      var k :| 0 <= k < |a| - 1 && a[1..][k] == x;
      assert Less(a[0].key, a[k + 1].key);
      LessIrreflexive(x.key);
    }
    assert a == [a[0]] + a[1..];
  }

  // ---- printing -----------------------------------------------------------------------

  function HexDigit(n: nat): char
    requires n < 16
  {
    if n < 10 then ('0' as int + n) as char else ('a' as int + (n - 10)) as char
  }

  /** Section 7: the characters that must be escaped, in the short form where there is one. */
  function QuoteChar(c: char): string {
    if c == '"' then "\\\""
    else if c == '\\' then "\\\\"
    else if c == '\n' then "\\n"
    else if c == '\r' then "\\r"
    else if c == '\t' then "\\t"
    else if c == '\U{08}' then "\\b"
    else if c == '\U{0C}' then "\\f"
    else if c as int < 0x20 then "\\u00" + [HexDigit(c as int / 16), HexDigit(c as int % 16)]
    else [c]
  }

  function QuoteBody(s: string): string {
    if s == "" then "" else QuoteChar(s[0]) + QuoteBody(s[1..])
  }

  function Quote(s: string): string {
    "\"" + (QuoteBody(s) + "\"")
  }

  function CommaJoin(parts: seq<string>): string {
    if parts == [] then "" else if |parts| == 1 then parts[0] else parts[0] + ("," + CommaJoin(parts[1..]))
  }

  function Pair(f: Keyed<string>): string {
    Quote(f.key) + (":" + f.item)
  }

  function Pairs(fs: seq<Keyed<string>>): seq<string> {
    seq(|fs|, i requires 0 <= i < |fs| => Pair(fs[i]))
  }

  /** `canonicalJson`: keys sorted, everything that is not JSON printed as null. */
  function Canonical(v: Value): string {
    match v
    case Null => "null"
    case Undefined => "null"
    case NotFinite => "null"
    case Bool(b) => if b then "true" else "false"
    case Number(t) => t
    case Str(s) => Quote(s)
    case Arr(items) => "[" + (CommaJoin(seq(|items|, i requires 0 <= i < |items| => Canonical(items[i]))) + "]")
    case Obj(fields) =>
      var printed := seq(|fields|, i requires 0 <= i < |fields| => Keyed(fields[i].key, Canonical(fields[i].item)));
      "{" + (CommaJoin(Pairs(SortKeys(printed))) + "}")
  }

  // ---- the normal form ------------------------------------------------------------------

  function Normal(v: Value): Value {
    match v
    case Undefined => Null
    case NotFinite => Null
    case Arr(items) => Arr(seq(|items|, i requires 0 <= i < |items| => Normal(items[i])))
    case Obj(fields) => Obj(SortKeys(NormalFields(v)))
    case _ => v
  }

  function NormalFields(v: Value): (r: seq<Keyed<Value>>)
    requires v.Obj?
    ensures |r| == |v.fields|
    ensures forall i :: 0 <= i < |r| ==> r[i] == Keyed(v.fields[i].key, Normal(v.fields[i].item))
    decreases v, 0
  {
    seq(|v.fields|, i requires 0 <= i < |v.fields| => Keyed(v.fields[i].key, Normal(v.fields[i].item)))
  }

  // ---- the text of a normal form -------------------------------------------------------------

  function Text(v: Value): string {
    match v
    case Bool(b) => if b then "true" else "false"
    case Number(t) => t
    case Str(s) => Quote(s)
    case Arr(items) => "[" + (CommaJoin(seq(|items|, i requires 0 <= i < |items| => Text(items[i]))) + "]")
    case Obj(fields) =>
      "{" + (CommaJoin(Pairs(seq(|fields|, i requires 0 <= i < |fields| => Keyed(fields[i].key, Text(fields[i].item))))) + "}")
    case _ => "null"
  }

  function Texts(items: seq<Value>): (r: seq<string>)
    ensures |r| == |items| && forall i :: 0 <= i < |items| ==> r[i] == Text(items[i])
  {
    seq(|items|, i requires 0 <= i < |items| => Text(items[i]))
  }

  function PrintFields(fs: seq<Keyed<Value>>): (r: seq<Keyed<string>>)
    ensures |r| == |fs| && forall i :: 0 <= i < |fs| ==> r[i] == Keyed(fs[i].key, Text(fs[i].item))
  {
    seq(|fs|, i requires 0 <= i < |fs| => Keyed(fs[i].key, Text(fs[i].item)))
  }

  lemma {:induction false} InsertPrinted(sorted: seq<Keyed<Value>>, f: Keyed<Value>)
    ensures InsertKey(PrintFields(sorted), Keyed(f.key, Text(f.item))) == PrintFields(InsertKey(sorted, f))
  {
    hide Text, PrintFields, Less;
    if sorted == [] || Less(f.key, sorted[0].key) {
      PrintedPush(f, sorted);
    } else {
      InsertPrinted(sorted[1..], f);
      assert sorted == [sorted[0]] + sorted[1..];
      PrintedPush(sorted[0], sorted[1..]);
      PrintedPush(sorted[0], InsertKey(sorted[1..], f));
    }
  }

  lemma PrintedPush(f: Keyed<Value>, fs: seq<Keyed<Value>>)
    ensures PrintFields([f] + fs) == [Keyed(f.key, Text(f.item))] + PrintFields(fs)
  {
    hide Text;
  }

  /** Sorting fields and printing them commute. */
  lemma {:induction false} SortPrinted(fs: seq<Keyed<Value>>)
    ensures SortKeys(PrintFields(fs)) == PrintFields(SortKeys(fs))
  {
    hide Text;
    if fs != [] {
      SortPrinted(fs[1..]);
      assert PrintFields(fs)[1..] == PrintFields(fs[1..]);
      InsertPrinted(SortKeys(fs[1..]), fs[0]);
    }
  }

  /** The canonical text is the text of the normal form. */
  lemma {:induction false} CanonicalIsText(v: Value)
    ensures Canonical(v) == Text(Normal(v))
    decreases v
  {
    match v {
      case Arr(items) =>
        forall i | 0 <= i < |items| ensures Canonical(items[i]) == Text(Normal(items[i])) {
          CanonicalIsText(items[i]);
        }
        assert seq(|items|, i requires 0 <= i < |items| => Canonical(items[i])) == Texts(Normal(v).items);
      case Obj(fields) =>
        forall i | 0 <= i < |fields| ensures Canonical(fields[i].item) == Text(Normal(fields[i].item)) {
          CanonicalIsText(fields[i].item);
        }
        var printed := seq(|fields|, i requires 0 <= i < |fields| => Keyed(fields[i].key, Canonical(fields[i].item)));
        assert printed == PrintFields(NormalFields(v));
        SortPrinted(NormalFields(v));
      case _ =>
    }
  }

  // ---- what the normal form is ---------------------------------------------------------------------

  /** Normal values: JSON only. */
  ghost predicate Ready(v: Value) {
    match v
    case Undefined => false
    case NotFinite => false
    case Number(t) => NumberToken(t)
    case Arr(items) => forall i :: 0 <= i < |items| ==> Ready(items[i])
    case Obj(fields) => forall i :: 0 <= i < |fields| ==> Ready(fields[i].item)
    case _ => true
  }

  lemma {:induction false} NormalIsReady(v: Value)
    requires Proper(v)
    ensures Ready(Normal(v))
    decreases v
  {
    match v {
      case Arr(items) =>
        forall i | 0 <= i < |items| ensures Ready(Normal(items[i])) {
          NormalIsReady(items[i]);
        }
      case Obj(fields) =>
        var fs := NormalFields(v);
        SortKeysSorts(fs);
        var sorted := SortKeys(fs);
        forall k | 0 <= k < |sorted| ensures Ready(sorted[k].item) {
          assert sorted[k] in sorted;
          var i :| 0 <= i < |fs| && fs[i] == sorted[k];
          NormalIsReady(fields[i].item);
        }
      case _ =>
    }
  }

  /** Two values have one normal form exactly when they are equal as JSON values. */
  lemma {:induction false} NormalIff(a: Value, b: Value)
    requires Proper(a) && Proper(b)
    ensures Normal(a) == Normal(b) <==> Same(a, b)
    decreases a
  {
    if a.Arr? && b.Arr? {
      forall i | 0 <= i < |a.items| && i < |b.items| ensures Normal(a.items[i]) == Normal(b.items[i]) <==> Same(a.items[i], b.items[i]) {
        NormalIff(a.items[i], b.items[i]);
      }
      ItemsIff(a.items, b.items);
    } else if a.Obj? && b.Obj? {
      forall i, j | 0 <= i < |a.fields| && 0 <= j < |b.fields|
        ensures Normal(a.fields[i].item) == Normal(b.fields[j].item) <==> Same(a.fields[i].item, b.fields[j].item)
      {
        NormalIff(a.fields[i].item, b.fields[j].item);
      }
      FieldsIff(a, b);
    }
  }

  lemma ItemsIff(us: seq<Value>, vs: seq<Value>)
    requires forall i :: 0 <= i < |us| && i < |vs| ==> (Normal(us[i]) == Normal(vs[i]) <==> Same(us[i], vs[i]))
    ensures Normal(Arr(us)) == Normal(Arr(vs)) <==> Same(Arr(us), Arr(vs))
  {
    var a, b := Normal(Arr(us)), Normal(Arr(vs));
    assert |a.items| == |us| && forall i :: 0 <= i < |us| ==> a.items[i] == Normal(us[i]);
    assert |b.items| == |vs| && forall i :: 0 <= i < |vs| ==> b.items[i] == Normal(vs[i]);
    if Same(Arr(us), Arr(vs)) {
      assert a.items == b.items;
    }
  }

  lemma FieldsIff(a: Value, b: Value)
    requires a.Obj? && b.Obj? && DistinctKeys(a.fields) && DistinctKeys(b.fields)
    requires forall i, j :: 0 <= i < |a.fields| && 0 <= j < |b.fields| ==>
               (Normal(a.fields[i].item) == Normal(b.fields[j].item) <==> Same(a.fields[i].item, b.fields[j].item))
    ensures Normal(a) == Normal(b) <==> Same(a, b)
  {
    var x, y := NormalFields(a), NormalFields(b);
    SortKeysSorts(x);
    SortKeysSorts(y);
    hide Same, Match, SortKeys, Normal, DistinctKeys, InLeft, InRight;
    if Same(a, b) {
      PartnersShareMembers(a, b, x, y);
      SortedListsAgree(SortKeys(x), SortKeys(y));
    } else if Normal(a) == Normal(b) {
      MembersArePartners(a, b, x, y);
    }
  }

  lemma PartnersShareMembers(a: Value, b: Value, x: seq<Keyed<Value>>, y: seq<Keyed<Value>>)
    requires a.Obj? && b.Obj? && |x| == |a.fields| && |y| == |b.fields|
    requires forall i: nat, j: nat :: i < |a.fields| && j < |b.fields| ==> (Match(a, b, i, j) <==> x[i] == y[j])
    requires Same(a, b)
    ensures forall f :: f in x <==> f in y
  {
    hide Match;
    forall f | f in x ensures f in y {
      var i: nat :| i < |x| && x[i] == f;
      assert InRight(a, b, i);
      var j: nat :| j < |b.fields| && Match(a, b, i, j);
      assert y[j] == f;
    }
    forall f | f in y ensures f in x {
      var j: nat :| j < |y| && y[j] == f;
      assert InLeft(a, b, j);
      var i: nat :| i < |a.fields| && Match(a, b, i, j);
      assert x[i] == f;
    }
  }

  lemma MembersArePartners(a: Value, b: Value, x: seq<Keyed<Value>>, y: seq<Keyed<Value>>)
    requires a.Obj? && b.Obj? && |x| == |a.fields| && |y| == |b.fields|
    requires forall i: nat, j: nat :: i < |a.fields| && j < |b.fields| ==> (Match(a, b, i, j) <==> x[i] == y[j])
    requires forall f :: f in x <==> f in y
    ensures Same(a, b)
  {
    hide Match;
    forall i: nat | i < |a.fields| ensures InRight(a, b, i) {
      assert x[i] in x;
      var j: nat :| j < |y| && y[j] == x[i];
      assert Match(a, b, i, j);
    }
    forall j: nat | j < |b.fields| ensures InLeft(a, b, j) {
      assert y[j] in y;
      var i: nat :| i < |x| && x[i] == y[j];
      assert Match(a, b, i, j);
    }
  }
}
