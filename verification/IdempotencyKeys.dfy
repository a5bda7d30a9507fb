/**
 * Idempotency keys: the text a key is hashed from names the work it is for.
 */
module IdempotencyKeys {
  import opened Common
  import opened CanonicalJson
  import JsonReading

  datatype KeySource = KeySource(sessionId: string, branchId: Option<string>, entryIds: seq<string>)

  datatype KeyInput = KeyInput(
    kind: string,
    scope: string,
    channel: Option<string>,
    tokens: Option<seq<string>>,
    sources: seq<KeySource>)

  function Strings(ss: seq<string>): Value {
    Arr(seq(|ss|, i requires 0 <= i < |ss| => Str(ss[i])))
  }

  function SourceValue(s: KeySource): Value {
    Obj([Keyed("sessionId", Str(s.sessionId))]
        + (if s.branchId.Some? then [Keyed("branchId", Str(s.branchId.value))] else [])
        + [Keyed("entryIds", Strings(s.entryIds))])
  }

  function SourceValues(ss: seq<KeySource>): Value {
    Arr(seq(|ss|, i requires 0 <= i < |ss| => SourceValue(ss[i])))
  }

  /** What `idempotencyKey` hashes: absent fields are left out. */
  function KeyPayload(k: KeyInput): Value {
    Obj([Keyed("kind", Str(k.kind)), Keyed("scope", Str(k.scope))]
        + (if k.channel.Some? then [Keyed("channel", Str(k.channel.value))] else [])
        + (if k.tokens.Some? then [Keyed("tokens", Strings(k.tokens.value))] else [])
        + [Keyed("sources", SourceValues(k.sources))])
  }

  /** The value stored under a key. */
  function At(fs: seq<Keyed<Value>>, key: string): Option<Value> {
    if fs == [] then None else if fs[0].key == key then Some(fs[0].item) else At(fs[1..], key)
  }

  lemma {:induction false} AtIndex(fs: seq<Keyed<Value>>, i: nat)
    requires i < |fs| && DistinctKeys(fs)
    ensures At(fs, fs[i].key) == Some(fs[i].item)
  {
    if i > 0 { AtIndex(fs[1..], i - 1); }
  }

  lemma {:induction false} AtFound(fs: seq<Keyed<Value>>, key: string) returns (i: nat)
    requires At(fs, key).Some?
    ensures i < |fs| && fs[i].key == key && At(fs, key) == Some(fs[i].item)
  {
    if fs[0].key == key {
      i := 0;
    } else {
      i := AtFound(fs[1..], key);
      i := i + 1;
    }
  }

  /** Equal objects agree key by key. */
  lemma SameAt(a: Value, b: Value, key: string)
    requires a.Obj? && b.Obj? && DistinctKeys(a.fields) && DistinctKeys(b.fields) && Same(a, b)
    ensures At(a.fields, key).Some? <==> At(b.fields, key).Some?
    ensures At(a.fields, key).Some? ==> Same(At(a.fields, key).value, At(b.fields, key).value)
  {
    if At(a.fields, key).Some? {
      var i := AtFound(a.fields, key);
      assert InRight(a, b, i);
      var j: nat :| j < |b.fields| && Match(a, b, i, j);
      AtIndex(b.fields, j);
    } else if At(b.fields, key).Some? {
      var j := AtFound(b.fields, key);
      assert InLeft(a, b, j);
      var i: nat :| i < |a.fields| && Match(a, b, i, j);
      AtIndex(a.fields, i);
    }
  }

  lemma {:induction false} SameRefl(v: Value)
    ensures Same(v, v)
    decreases v
  {
    match v {
      case Arr(items) =>
        forall i | 0 <= i < |items| ensures Same(items[i], items[i]) {
          SameRefl(items[i]);
        }
      case Obj(fields) =>
        forall i: nat | i < |fields| ensures InRight(v, v, i) && InLeft(v, v, i) {
          SameRefl(fields[i].item);
          assert Match(v, v, i, i);
        }
      case _ =>
    }
  }

  lemma SameStrings(a: seq<string>, b: seq<string>)
    requires Same(Strings(a), Strings(b))
    ensures a == b
  {
    var x, y := Strings(a).items, Strings(b).items;
    forall i | 0 <= i < |a| ensures a[i] == b[i] {
      assert Same(x[i], y[i]);
    }
  }

  lemma SourceFields(s: KeySource)
    ensures Proper(SourceValue(s))
    ensures var fs := SourceValue(s).fields;
            && At(fs, "sessionId") == Some(Str(s.sessionId))
            && At(fs, "entryIds") == Some(Strings(s.entryIds))
            && At(fs, "branchId") == (if s.branchId.Some? then Some(Str(s.branchId.value)) else None)
  {
    var fs := SourceValue(s).fields;
    assert |"sessionId"| != |"branchId"| && "sessionId"[0] != "entryIds"[0] && "branchId"[0] != "entryIds"[0];
    assert Proper(Strings(s.entryIds));
    AtIndex(fs, 0);
    AtIndex(fs, |fs| - 1);
    if s.branchId.Some? {
      AtIndex(fs, 1);
    } else if At(fs, "branchId").Some? {
      var i := AtFound(fs, "branchId");
    }
  }

  lemma SameSource(a: KeySource, b: KeySource)
    requires Same(SourceValue(a), SourceValue(b))
    ensures a == b
  {
    SourceFields(a);
    SourceFields(b);
    SameAt(SourceValue(a), SourceValue(b), "sessionId");
    SameAt(SourceValue(a), SourceValue(b), "entryIds");
    SameAt(SourceValue(a), SourceValue(b), "branchId");
    hide SourceValue, At, Strings;
    SameStrings(a.entryIds, b.entryIds);
  }

  lemma SameSources(a: seq<KeySource>, b: seq<KeySource>)
    requires Same(SourceValues(a), SourceValues(b))
    ensures a == b
  {
    var x, y := SourceValues(a).items, SourceValues(b).items;
    hide SourceValue;
    assert |a| == |b|;
    forall i | 0 <= i < |a| ensures a[i] == b[i] {
      assert Same(x[i], y[i]);
      SameSource(a[i], b[i]);
    }
  }

  lemma PayloadProper(k: KeyInput)
    ensures Proper(KeyPayload(k))
    ensures KeyPayload(k).Obj? && DistinctKeys(KeyPayload(k).fields)
  {
    assert k.tokens.Some? ==> Proper(Strings(k.tokens.value));
    assert Proper(SourceValues(k.sources)) by {
      forall i | 0 <= i < |k.sources| ensures Proper(SourceValue(k.sources[i])) {
        SourceFields(k.sources[i]);
      }
    }
    var fs := KeyPayload(k).fields;
    hide Strings, SourceValues;
    assert DistinctKeys(fs);
  }

  lemma PayloadFields(k: KeyInput)
    ensures var fs := KeyPayload(k).fields;
            && At(fs, "kind") == Some(Str(k.kind)) && At(fs, "scope") == Some(Str(k.scope))
            && At(fs, "sources") == Some(SourceValues(k.sources))
            && At(fs, "channel") == (if k.channel.Some? then Some(Str(k.channel.value)) else None)
            && At(fs, "tokens") == (if k.tokens.Some? then Some(Strings(k.tokens.value)) else None)
  {
    hide Strings, SourceValues, Proper;
    var fs := KeyPayload(k).fields;
    PayloadProper(k);
    assert DistinctKeys(fs);
    AtIndex(fs, 0);
    AtIndex(fs, 1);
    AtIndex(fs, |fs| - 1);
    if k.channel.Some? {
      AtIndex(fs, 2);
    } else if At(fs, "channel").Some? {
      var i := AtFound(fs, "channel");
    }
    if k.tokens.Some? {
      AtIndex(fs, |fs| - 2);
    } else if At(fs, "tokens").Some? {
      var i := AtFound(fs, "tokens");
    }
  }

  /**
   * The text an idempotency key is hashed from names the work: two inputs give the same text
   * exactly when kind, scope, channel, tokens and the ordered sources are all the same, so a fork
   * with the same entries never shares a key with its parent.
   */
  lemma KeyTextIff(k: KeyInput, l: KeyInput)
    ensures Canonical(KeyPayload(k)) == Canonical(KeyPayload(l)) <==> k == l
  {
    hide KeyPayload, Strings, SourceValues, At, Proper, Canonical;
    var a, b := KeyPayload(k), KeyPayload(l);
    PayloadProper(k);
    PayloadProper(l);
    JsonReading.CanonicalIff(a, b);
    if Same(a, b) {
      PayloadFields(k);
      PayloadFields(l);
      SameAt(a, b, "kind");
      SameAt(a, b, "scope");
      SameAt(a, b, "channel");
      SameAt(a, b, "tokens");
      SameAt(a, b, "sources");
      SameSources(k.sources, l.sources);
      if k.tokens.Some? { SameStrings(k.tokens.value, l.tokens.value); }
    } else if k == l {
      SameRefl(a);
    }
  }
}
