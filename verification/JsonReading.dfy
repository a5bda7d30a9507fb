/**
 * Canonical text, read by the rules of JSON themselves: a reader of strings after section 7 of RFC 8259,
 * and the order of keys by the code units of UTF-16.
 */
module JsonReading {
  import opened Common
  import opened CanonicalJson

  // ---- strings ------------------------------------------------------------------------------------------

  function HexValue(c: char): Option<nat> {
    if '0' <= c <= '9' then Some(c as int - '0' as int)
    else if 'a' <= c <= 'f' then Some(10 + (c as int - 'a' as int))
    else if 'A' <= c <= 'F' then Some(10 + (c as int - 'A' as int))
    else None
  }

  function FourHex(t: string): Option<nat>
    requires |t| == 4
  {
    var a, b, c, d := HexValue(t[0]), HexValue(t[1]), HexValue(t[2]), HexValue(t[3]);
    if a.Some? && b.Some? && c.Some? && d.Some? then Some(((a.value * 16 + b.value) * 16 + c.value) * 16 + d.value) else None
  }

  /** The characters a backslash names by one letter. */
  const Named: map<char, char> :=
    map['"' := '"', '\\' := '\\', '/' := '/', 'b' := '\U{08}', 'f' := '\U{0C}', 'n' := '\n', 'r' := '\r', 't' := '\t']

  /** The character behind a backslash and how much text names it; halves of a pair are not characters. */
  function Escaped(t: string): Option<(char, nat)> {
    if t == "" then None
    else if t[0] in Named then Some((Named[t[0]], 1))
    else if t[0] == 'u' && |t| >= 5 && FourHex(t[1..5]).Some? then
      var n := FourHex(t[1..5]).value;
      if n < 0xD800 || 0xE000 <= n < 0x10000 then Some((n as char, 5)) else None
    else None
  }

  datatype Read = Read(s: string, rest: string)

  /** The body of a string, its opening quote read: the string and what is behind its closing quote. */
  function ReadBody(t: string): (r: Option<Read>)
    ensures r.Some? ==> |r.value.rest| < |t|
    decreases |t|
  {
    if t == "" || t[0] as int < 0x20 then None
    else if t[0] == '"' then Some(Read("", t[1..]))
    else if t[0] == '\\' then
      var e := Escaped(t[1..]);
      if e.None? || |t| < 1 + e.value.1 then None else Prepend(e.value.0, ReadBody(t[1 + e.value.1..]))
    else Prepend(t[0], ReadBody(t[1..]))
  }

  function Prepend(c: char, r: Option<Read>): (p: Option<Read>)
    ensures p.Some? ==> r.Some? && p.value.rest == r.value.rest
  {
    if r.None? then None else Some(Read([c] + r.value.s, r.value.rest))
  }

  function ReadString(t: string): (r: Option<Read>)
    ensures r.Some? ==> |r.value.rest| < |t|
  {
    if t == "" || t[0] != '"' then None else ReadBody(t[1..])
  }

  lemma HexDigitReads(n: nat)
    requires n < 16
    ensures HexValue(HexDigit(n)) == Some(n)
  {
  }

  lemma ControlReads(c: char, t: string)
    requires c as int < 0x20
    ensures var q := "\\u00" + [HexDigit(c as int / 16), HexDigit(c as int % 16)];
            ReadBody(q + t) == Prepend(c, ReadBody(t))
  {
    hide HexDigit, HexValue, ReadBody, Named;
    var a, b := HexDigit(c as int / 16), HexDigit(c as int % 16);
    HexDigitReads(c as int / 16);
    HexDigitReads(c as int % 16);
    ZeroReads();
    var u := ['u', '0', '0', a, b];
    assert "\\u00" + [a, b] == ['\\'] + u;
    assert (u + t)[1..5] == ['0', '0', a, b];
    UIsNotNamed();
    EscapeReads(c, u, t);
    assert ['\\'] + u + t == ['\\'] + (u + t);
  }

  lemma ZeroReads()
    ensures HexValue('0') == Some(0)
  {
  }

  lemma UIsNotNamed()
    ensures 'u' !in Named
  {
  }

  /** An escape sequence reads as the character it names. */
  lemma EscapeReads(c: char, e: string, t: string)
    requires e != "" && Escaped(e + t) == Some((c, |e|))
    ensures ReadBody(['\\'] + (e + t)) == Prepend(c, ReadBody(t))
  {
    var q := ['\\'] + (e + t);
    hide Escaped;
    assert q[1..] == e + t && q[1 + |e|..] == t;
  }

  lemma ShortReads(c: char, letter: char, t: string)
    requires letter in Named && Named[letter] == c
    ensures ReadBody(['\\', letter] + t) == Prepend(c, ReadBody(t))
  {
    hide ReadBody, Named;
    assert ([letter] + t)[0] == letter;
    EscapeReads(c, [letter], t);
    assert ['\\', letter] + t == ['\\'] + ([letter] + t);
  }

  lemma PlainReads(c: char, t: string)
    requires c as int >= 0x20 && c != '"' && c != '\\'
    ensures ReadBody([c] + t) == Prepend(c, ReadBody(t))
  {
    assert ([c] + t)[1..] == t;
  }

  /** What is printed for a character reads as that character. */
  lemma CharReads(c: char, t: string)
    ensures ReadBody(QuoteChar(c) + t) == Prepend(c, ReadBody(t))
  {
    hide ReadBody, HexDigit;
    if c == '"' { ShortReads(c, '"', t); }
    else if c == '\\' { ShortReads(c, '\\', t); }
    else if c == '\n' { ShortReads(c, 'n', t); }
    else if c == '\r' { ShortReads(c, 'r', t); }
    else if c == '\t' { ShortReads(c, 't', t); }
    else if c == '\U{08}' { ShortReads(c, 'b', t); }
    else if c == '\U{0C}' { ShortReads(c, 'f', t); }
    else if c as int < 0x20 { ControlReads(c, t); }
    else { PlainReads(c, t); }
  }

  lemma QuotedTail(s: string, tail: string)
    requires s != ""
    ensures QuoteBody(s) + tail == QuoteChar(s[0]) + (QuoteBody(s[1..]) + tail)
  {
    hide QuoteChar;
  }

  lemma {:induction false} BodyReads(s: string, t: string)
    ensures ReadBody(QuoteBody(s) + ("\"" + t)) == Some(Read(s, t))
  {
    var tail := "\"" + t;
    if s == "" {
      hide QuoteChar;
      assert QuoteBody(s) + tail == tail && tail[1..] == t;
    } else {
      hide QuoteChar, QuoteBody, ReadBody;
      BodyReads(s[1..], t);
      CharReads(s[0], QuoteBody(s[1..]) + tail);
      QuotedTail(s, tail);
      assert [s[0]] + s[1..] == s;
    }
  }

  /** A quoted string is JSON: read by the rules it is that string, whatever follows. */
  lemma QuoteReadsBack(s: string, t: string)
    ensures ReadString(Quote(s) + t) == Some(Read(s, t))
  {
    BodyReads(s, t);
    hide ReadBody;
    assert Quote(s) + t == ['"'] + (QuoteBody(s) + ("\"" + t));
    assert (['"'] + (QuoteBody(s) + ("\"" + t)))[1..] == QuoteBody(s) + ("\"" + t);
  }

  // ---- numbers ---------------------------------------------------------------------------------------------

  /** Tokens of numbers, by the characters section 6 has. */
  lemma NumberTokenIff(t: string)
    ensures NumberToken(t) <==> t != "" && t[0] in "-0123456789" && forall c :: c in t ==> c in "-+.eE0123456789"
  {
    forall c: char ensures NumberChar(c) <==> c in "-+.eE0123456789" { CharIs(c); }
    if t != "" { DigitIs(t[0]); }
    hide NumberChar;
  }

  lemma DigitIs(c: char)
    ensures '0' <= c <= '9' || c == '-' <==> c in "-0123456789"
  {
    var ten := "-0123456789";
    if '0' <= c <= '9' { assert ten[c as int - '0' as int + 1] == c; }
    assert ten[0] == '-';
  }

  lemma CharIs(c: char)
    ensures NumberChar(c) <==> c in "-+.eE0123456789"
  {
    var all := "-+.eE0123456789";
    if '0' <= c <= '9' { assert all[c as int - '0' as int + 5] == c; }
    assert all[0] == '-' && all[1] == '+' && all[2] == '.' && all[3] == 'e' && all[4] == 'E';
  }

  // ---- values --------------------------------------------------------------------------------------------------

  /** How far number characters run. */
  function Digits(t: string): (n: nat)
    ensures n <= |t|
  {
    if t == "" || !NumberChar(t[0]) then 0 else 1 + Digits(t[1..])
  }

  datatype Parsed<T> = NotJson | Parsed(v: T, rest: string)

  function Literal(t: string, word: string, v: Value): (r: Parsed<Value>)
    requires word != ""
    ensures r.Parsed? ==> |r.rest| < |t|
  {
    if word <= t then Parsed(v, t[|word|..]) else NotJson
  }

  function ReadValue(t: string): (r: Parsed<Value>)
    ensures r.Parsed? ==> |r.rest| < |t|
    decreases |t|, 1
  {
    if t == "" then NotJson
    else if t[0] == '"' then
      (match ReadBody(t[1..])
       case None => NotJson
       case Some(read) => Parsed(Str(read.s), read.rest))
    else if t[0] == '[' then
      if |t| > 1 && t[1] == ']' then Parsed(Arr([]), t[2..])
      else (match ReadItems(t[1..])
            case NotJson => NotJson
            case Parsed(items, rest) => Parsed(Arr(items), rest))
    else if t[0] == '{' then
      if |t| > 1 && t[1] == '}' then Parsed(Obj([]), t[2..])
      else (match ReadFields(t[1..])
            case NotJson => NotJson
            case Parsed(fields, rest) => Parsed(Obj(fields), rest))
    else if t[0] == 't' then Literal(t, "true", Bool(true))
    else if t[0] == 'f' then Literal(t, "false", Bool(false))
    else if t[0] == 'n' then Literal(t, "null", Null)
    else if NumberToken(t[..Digits(t)]) then Parsed(Number(t[..Digits(t)]), t[Digits(t)..])
    else NotJson
  }

  /** Values with commas between them, up to the closing bracket. */
  function ReadItems(t: string): (r: Parsed<seq<Value>>)
    ensures r.Parsed? ==> |r.rest| < |t|
    decreases |t|, 2
  {
    match ReadValue(t)
    case NotJson => NotJson
    case Parsed(v, rest) =>
      if rest == "" then NotJson
      else if rest[0] == ']' then Parsed([v], rest[1..])
      else if rest[0] != ',' then NotJson
      else
        match ReadItems(rest[1..])
        case NotJson => NotJson
        case Parsed(more, rest) => Parsed([v] + more, rest)
  }

  /** A key, a colon and a value. */
  function ReadField(t: string): (r: Parsed<Keyed<Value>>)
    ensures r.Parsed? ==> |r.rest| < |t|
    decreases |t|, 2
  {
    match ReadString(t)
    case None => NotJson
    case Some(key) =>
      if key.rest == "" || key.rest[0] != ':' then NotJson
      else
        match ReadValue(key.rest[1..])
        case NotJson => NotJson
        case Parsed(v, rest) => Parsed(Keyed(key.s, v), rest)
  }

  function ReadFields(t: string): (r: Parsed<seq<Keyed<Value>>>)
    ensures r.Parsed? ==> |r.rest| < |t|
    decreases |t|, 3
  {
    match ReadField(t)
    case NotJson => NotJson
    case Parsed(f, rest) =>
      if rest == "" then NotJson
      else if rest[0] == '}' then Parsed([f], rest[1..])
      else if rest[0] != ',' then NotJson
      else
        match ReadFields(rest[1..])
        case NotJson => NotJson
        case Parsed(more, rest) => Parsed([f] + more, rest)
  }

  predicate Delimited(s: string) {
    s == "" || s[0] == ',' || s[0] == ']' || s[0] == '}'
  }

  lemma Assoc(a: string, b: string, c: string)
    ensures (a + b) + c == a + (b + c)
  {
  }

  /** What follows the first item: the closing bracket, or a comma and the rest. */
  function AfterFirst(parts: seq<string>, close: string): string
    requires parts != []
  {
    if |parts| == 1 then close else "," + (CommaJoin(parts[1..]) + close)
  }

  lemma JoinSplits(parts: seq<string>, close: string)
    requires parts != []
    ensures CommaJoin(parts) + close == parts[0] + AfterFirst(parts, close)
  {
    if |parts| > 1 {
      Assoc(parts[0], "," + CommaJoin(parts[1..]), close);
      Assoc(",", CommaJoin(parts[1..]), close);
    }
  }

  ghost predicate AllReady(us: seq<Value>) {
    forall i :: 0 <= i < |us| ==> Ready(us[i])
  }

  /** A closing bracket comes first only behind an empty list. */
  lemma EmptyJoin(us: seq<Value>, close: string)
    requires AllReady(us) && close != "" && close[0] == ']'
    ensures (CommaJoin(Texts(us)) + close)[0] == ']' <==> us == []
    ensures us == [] ==> CommaJoin(Texts(us)) + close == close
  {
    if us != [] {
      JoinSplits(Texts(us), close);
      hide Text, CommaJoin, Ready;
    } else {
      assert "" + close == close;
    }
  }

  ghost predicate FieldsReady(us: seq<Keyed<Value>>) {
    forall i :: 0 <= i < |us| ==> Ready(us[i].item)
  }

  lemma PairSplits(f: Keyed<Value>, rest: string)
    ensures Pair(Keyed(f.key, Text(f.item))) + rest == Quote(f.key) + (":" + (Text(f.item) + rest))
  {
    hide Quote, Text;
    Assoc(Quote(f.key), ":" + Text(f.item), rest);
    Assoc(":", Text(f.item), rest);
  }

  lemma EmptyFields(us: seq<Keyed<Value>>, close: string)
    requires close != "" && close[0] == '}'
    ensures (CommaJoin(Pairs(PrintFields(us))) + close)[0] == '}' <==> us == []
    ensures us == [] ==> CommaJoin(Pairs(PrintFields(us))) + close == close
  {
    if us != [] {
      JoinSplits(Pairs(PrintFields(us)), close);
      assert Pair(PrintFields(us)[0])[0] == '"';
      hide Pair, CommaJoin, Text;
    } else {
      assert "" + close == close;
    }
  }

  lemma {:induction false} DigitsAre(a: string, t: string)
    requires (forall c :: c in a ==> NumberChar(c)) && (t == "" || !NumberChar(t[0]))
    ensures Digits(a + t) == |a|
  {
    if a == "" {
      assert a + t == t;
    } else {
      assert (a + t)[1..] == a[1..] + t && forall c :: c in a[1..] ==> c in a;
      DigitsAre(a[1..], t);
    }
  }

  lemma NumberReads(a: string, t: string)
    requires NumberToken(a) && Delimited(t)
    ensures ReadValue(a + t) == Parsed(Number(a), t)
  {
    DigitsAre(a, t);
    hide ReadItems, ReadFields, ReadBody;
    assert (a + t)[..|a|] == a && (a + t)[|a|..] == t && (a + t)[0] == a[0];
  }

  lemma WordReads(word: string, v: Value, t: string)
    requires word != ""
    ensures Literal(word + t, word, v) == Parsed(v, t)
  {
    assert (word + t)[..|word|] == word && (word + t)[|word|..] == t;
  }

  lemma {:induction false} TextReads(v: Value, t: string)
    requires Ready(v) && Delimited(t)
    ensures ReadValue(Text(v) + t) == Parsed(v, t)
    decreases v, 1
  {
    hide ReadItems, ReadFields, ReadBody, CommaJoin, Quote;
    match v {
      case Number(a) => NumberReads(a, t);
      case Str(s) => StringReads(s, t);
      case Arr(items) => ArrayReads(items, t);
      case Obj(fields) => ObjectReads(fields, t);
      case Bool(b) => if b { WordReads("true", v, t); } else { WordReads("false", v, t); }
      case _ => WordReads("null", v, t);
    }
  }

  lemma StringReads(s: string, t: string)
    ensures ReadValue(Quote(s) + t) == Parsed(Str(s), t)
  {
    QuoteReadsBack(s, t);
    hide ReadItems, ReadFields, ReadBody, QuoteBody;
  }

  lemma ArrayReads(items: seq<Value>, t: string)
    requires AllReady(items)
    ensures ReadValue("[" + (CommaJoin(Texts(items)) + "]") + t) == Parsed(Arr(items), t)
    decreases items, 2
  {
    hide ReadFields, ReadBody;
    var body := CommaJoin(Texts(items)) + ("]" + t);
    Assoc("[", CommaJoin(Texts(items)) + "]", t);
    Assoc(CommaJoin(Texts(items)), "]", t);
    assert ("[" + body)[1..] == body;
    if items == [] {
      assert body == "]" + t && ("[" + body)[2..] == t;
    } else {
      EmptyJoin(items, "]" + t);
      ItemsRead(items, t);
      hide ReadItems;
    }
  }

  lemma ItemsStep(q: string, v: Value, rest: string)
    requires ReadValue(q) == Parsed(v, rest) && rest != ""
    ensures rest[0] == ']' ==> ReadItems(q) == Parsed([v], rest[1..])
    ensures rest[0] == ',' && ReadItems(rest[1..]).Parsed? ==>
              ReadItems(q) == Parsed([v] + ReadItems(rest[1..]).v, ReadItems(rest[1..]).rest)
  {
    hide ReadValue;
  }

  lemma {:induction false} ItemsRead(items: seq<Value>, t: string)
    requires AllReady(items) && items != []
    ensures ReadItems(CommaJoin(Texts(items)) + ("]" + t)) == Parsed(items, t)
    decreases items, 1
  {
    hide ReadItems, ReadValue, CommaJoin, Text;
    var parts := Texts(items);
    var rest := AfterFirst(parts, "]" + t);
    JoinSplits(parts, "]" + t);
    TextReads(items[0], rest);
    ItemsStep(parts[0] + rest, items[0], rest);
    assert parts[1..] == Texts(items[1..]);
    hide Ready;
    if |items| == 1 {
      assert rest[1..] == t && items == [items[0]];
    } else {
      ItemsRead(items[1..], t);
      assert rest[1..] == CommaJoin(parts[1..]) + ("]" + t);
      assert items == [items[0]] + items[1..];
    }
  }

  lemma ObjectReads(fields: seq<Keyed<Value>>, t: string)
    requires FieldsReady(fields)
    ensures ReadValue("{" + (CommaJoin(Pairs(PrintFields(fields))) + "}") + t) == Parsed(Obj(fields), t)
    decreases fields, 2
  {
    hide ReadItems, ReadBody, ReadField, CommaJoin;
    var parts := Pairs(PrintFields(fields));
    var body := CommaJoin(parts) + ("}" + t);
    Assoc("{", CommaJoin(parts) + "}", t);
    Assoc(CommaJoin(parts), "}", t);
    assert ("{" + body)[1..] == body;
    EmptyFields(fields, "}" + t);
    if fields == [] {
      assert body == "}" + t && ("{" + body)[2..] == t;
    } else {
      FieldsRead(fields, t);
      hide ReadFields;
    }
  }

  lemma FieldReads(f: Keyed<Value>, t: string)
    requires Ready(f.item) && Delimited(t)
    ensures ReadField(Pair(Keyed(f.key, Text(f.item))) + t) == Parsed(f, t)
    decreases f, 2
  {
    PairSplits(f, t);
    QuoteReadsBack(f.key, ":" + (Text(f.item) + t));
    TextReads(f.item, t);
    hide ReadString, ReadValue, Text, Pair, Quote;
    assert (":" + (Text(f.item) + t))[1..] == Text(f.item) + t;
  }

  lemma FieldsStep(q: string, f: Keyed<Value>, rest: string)
    requires ReadField(q) == Parsed(f, rest) && rest != ""
    ensures rest[0] == '}' ==> ReadFields(q) == Parsed([f], rest[1..])
    ensures rest[0] == ',' && ReadFields(rest[1..]).Parsed? ==>
              ReadFields(q) == Parsed([f] + ReadFields(rest[1..]).v, ReadFields(rest[1..]).rest)
  {
    hide ReadField;
  }

  lemma {:induction false} FieldsRead(fields: seq<Keyed<Value>>, t: string)
    requires FieldsReady(fields) && fields != []
    ensures ReadFields(CommaJoin(Pairs(PrintFields(fields))) + ("}" + t)) == Parsed(fields, t)
    decreases fields, 1
  {
    hide ReadFields, ReadField, CommaJoin, Text, Pair, Quote;
    var parts := Pairs(PrintFields(fields));
    var rest := AfterFirst(parts, "}" + t);
    JoinSplits(parts, "}" + t);
    FieldReads(fields[0], rest);
    FieldsStep(parts[0] + rest, fields[0], rest);
    assert parts[1..] == Pairs(PrintFields(fields[1..]));
    hide Ready;
    if |fields| == 1 {
      assert rest[1..] == t && fields == [fields[0]];
    } else {
      FieldsRead(fields[1..], t);
      assert rest[1..] == CommaJoin(parts[1..]) + ("}" + t);
      assert fields == [fields[0]] + fields[1..];
    }
  }

  /** Canonical text is JSON: read by the rules it is the value, its keys sorted and what is not JSON null. */
  lemma CanonicalReadsBack(v: Value)
    requires Proper(v)
    ensures ReadValue(Canonical(v)) == Parsed(Normal(v), "")
  {
    CanonicalIsText(v);
    NormalIsReady(v);
    TextReads(Normal(v), "");
    hide ReadValue, Text;
    assert Text(Normal(v)) + "" == Text(Normal(v));
  }

  /** Text of a value followed by a delimiter is decoded in one way only. */
  lemma UniqueText(u: Value, v: Value, s: string, t: string)
    requires Ready(u) && Ready(v) && Delimited(s) && Delimited(t) && Text(u) + s == Text(v) + t
    ensures u == v && s == t
  {
    TextReads(u, s);
    TextReads(v, t);
    hide ReadValue, Text;
  }

  /**
   * The canonical text determines the value, and only the value: two values print the same exactly
   * when they are equal up to object key order (what is not JSON counting as null).
   */
  lemma CanonicalIff(a: Value, b: Value)
    requires Proper(a) && Proper(b)
    ensures Canonical(a) == Canonical(b) <==> Same(a, b)
  {
    CanonicalIsText(a);
    CanonicalIsText(b);
    NormalIff(a, b);
    CanonicalReadsBack(a);
    CanonicalReadsBack(b);
    hide ReadValue, Canonical, Text, Normal, Same;
  }

  // ---- the order of keys --------------------------------------------------------------------------------------

  /** The code units of a character: one, or a pair. */
  function Units(c: char): seq<int> {
    var n := c as int;
    if n < 0x10000 then [n] else [0xD800 + (n - 0x10000) / 0x400, 0xDC00 + (n - 0x10000) % 0x400]
  }

  function UnitsOf(s: string): seq<int> {
    if s == "" then [] else Units(s[0]) + UnitsOf(s[1..])
  }

  predicate UnitsLess(a: seq<int>, b: seq<int>) {
    b != [] && (a == [] || a[0] < b[0] || (a[0] == b[0] && UnitsLess(a[1..], b[1..])))
  }

  lemma SameHead(x: int, a: seq<int>, b: seq<int>)
    ensures UnitsLess([x] + a, [x] + b) <==> UnitsLess(a, b)
  {
    assert ([x] + a)[1..] == a && ([x] + b)[1..] == b;
  }

  lemma SameCharacter(c: char, a: seq<int>, b: seq<int>)
    ensures UnitsLess(Units(c) + a, Units(c) + b) <==> UnitsLess(a, b)
  {
    var u := Units(c);
    if |u| == 1 {
      SameHead(u[0], a, b);
      assert u == [u[0]];
    } else {
      SameHead(u[1], a, b);
      SameHead(u[0], [u[1]] + a, [u[1]] + b);
      assert u + a == [u[0]] + ([u[1]] + a) && u + b == [u[0]] + ([u[1]] + b);
    }
  }

  lemma OtherCharacter(c: char, d: char, a: seq<int>, b: seq<int>)
    requires c != d
    ensures UnitsLess(Units(c) + a, Units(d) + b) <==> Rank(c) < Rank(d)
  {
    var m, n := c as int, d as int;
    var u, v := Units(c) + a, Units(d) + b;
    if m >= 0x10000 && n >= 0x10000 && (m - 0x10000) / 0x400 == (n - 0x10000) / 0x400 {
      assert u[1..] == [0xDC00 + (m - 0x10000) % 0x400] + a && v[1..] == [0xDC00 + (n - 0x10000) % 0x400] + b;
    }
  }

  /** Keys are sorted as their UTF-16 code units are. */
  lemma {:induction false} LessIsByCodeUnits(a: string, b: string)
    ensures Less(a, b) <==> UnitsLess(UnitsOf(a), UnitsOf(b))
  {
    if a != "" && b != "" {
      if a[0] == b[0] {
        LessIsByCodeUnits(a[1..], b[1..]);
        SameCharacter(a[0], UnitsOf(a[1..]), UnitsOf(b[1..]));
      } else {
        OtherCharacter(a[0], b[0], UnitsOf(a[1..]), UnitsOf(b[1..]));
      }
      hide Units, Rank, UnitsLess;
    }
  }
}
