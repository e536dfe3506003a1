/** What a template says: the text of every token, told from the records of the context and the parts of its key. */
module TemplateMeaning {
  import opened Common
  import opened Templates
  import opened TemplateRendering

  // ---------------------------------------------------------------- the parts of a key

  /** The parts with a dot between each two. */
  function Join(parts: seq<string>): string
    requires parts != []
  {
    if |parts| == 1 then parts[0] else parts[0] + "." + Join(parts[1..])
  }

  ghost predicate DotFree(parts: seq<string>) {
    forall i | 0 <= i < |parts| :: '.' !in parts[i]
  }

  ghost predicate PartsOf(key: string, parts: seq<string>) {
    parts != [] && DotFree(parts) && Join(parts) == key
  }

  lemma {:induction false} SplitDotFree(key: string)
    ensures DotFree(Split(key))
  {
    if key != "" {
      SplitDotFree(key[1..]);
      var rest := Split(key[1..]);
      assert '.' !in rest[0];
    }
  }

  /** A character in front of the joined parts goes to the first of them. */
  lemma JoinFront(c: char, parts: seq<string>)
    requires parts != []
    ensures Join([[c] + parts[0]] + parts[1..]) == [c] + Join(parts)
  {
    var more := [[c] + parts[0]] + parts[1..];
    assert more[1..] == parts[1..];
    if |parts| > 1 {
      assert ([c] + parts[0]) + "." + Join(parts[1..]) == [c] + (parts[0] + "." + Join(parts[1..]));
    }
  }

  lemma JoinDot(parts: seq<string>)
    requires parts != []
    ensures Join([""] + parts) == "." + Join(parts)
  {
    assert ([""] + parts)[1..] == parts;
  }

  lemma {:induction false} SplitJoins(key: string)
    ensures Join(Split(key)) == key
  {
    if key != "" {
      SplitJoins(key[1..]);
      assert key == [key[0]] + key[1..];
      if key[0] == '.' {
        JoinDot(Split(key[1..]));
      } else {
        JoinFront(key[0], Split(key[1..]));
      }
    }
  }

  /** Splitting undoes joining. */
  lemma {:induction false} SplitOfJoin(parts: seq<string>)
    requires parts != [] && DotFree(parts)
    ensures Split(Join(parts)) == parts
    decreases |parts|, |parts[0]|
  {
    var key, p := Join(parts), parts[0];
    if p != "" {
      var less := [p[1..]] + parts[1..];
      assert DotFree(less) by {
        assert forall i | 1 <= i < |less| :: less[i] == parts[i];
        assert '.' !in less[0] by { assert '.' !in parts[0]; }
      }
      assert [p[0]] + less[0] == p && [p] + less[1..] == parts;
      JoinFront(p[0], less);
      SplitOfJoin(less);
      assert key == [p[0]] + Join(less) && key[1..] == Join(less);
      assert p[0] in parts[0];
    } else if |parts| > 1 {
      SplitOfJoin(parts[1..]);
      assert [""] + parts[1..] == parts;
      JoinDot(parts[1..]);
      assert key[0] == '.' && key[1..] == Join(parts[1..]);
    } else {
      assert parts == [""];
    }
  }

  /** The split of a key is the one list of parts without dots that joins back to it. */
  lemma SplitIff(key: string, parts: seq<string>)
    ensures parts == Split(key) <==> PartsOf(key, parts)
  {
    SplitDotFree(key);
    SplitJoins(key);
    if PartsOf(key, parts) {
      SplitOfJoin(parts);
    }
  }

  // ---------------------------------------------------------------- where a key leads

  /** Going from `v` into the fields named by the parts, one record after the other, ends at `w`. */
  ghost predicate LeadsAlong(trail: seq<Value>, v: Value, parts: seq<string>, w: Value) {
    && |trail| == |parts| + 1 && trail[0] == v && trail[|parts|] == w
    && forall i | 0 <= i < |parts| ::
         trail[i].Record? && parts[i] in trail[i].fields && trail[i].fields[parts[i]] == trail[i + 1]
  }

  ghost predicate Leads(v: Value, parts: seq<string>, w: Value) {
    exists trail :: LeadsAlong(trail, v, parts, w)
  }

  lemma {:induction false} LeadsDown(trail: seq<Value>, v: Value, parts: seq<string>, w: Value)
    requires LeadsAlong(trail, v, parts, w)
    ensures Descend(v, parts) == w
    decreases |parts|
  {
    if parts != [] {
      assert trail[0].fields[parts[0]] == trail[1];
      LeadsDown(trail[1..], trail[1], parts[1..], w);
    }
  }

  lemma {:induction false} DescentLeads(v: Value, parts: seq<string>)
    requires Descend(v, parts) != Absent
    ensures Leads(v, parts, Descend(v, parts))
    decreases |parts|
  {
    var w := Descend(v, parts);
    if parts == [] {
      assert LeadsAlong([v], v, parts, w);
    } else {
      var u := v.fields[parts[0]];
      DescentLeads(u, parts[1..]);
      var trail :| LeadsAlong(trail, u, parts[1..], w);
      TrailGrows(trail, v, u, parts, w);
    }
  }

  lemma TrailGrows(trail: seq<Value>, v: Value, u: Value, parts: seq<string>, w: Value)
    requires parts != [] && LeadsAlong(trail, u, parts[1..], w)
    requires v.Record? && parts[0] in v.fields && v.fields[parts[0]] == u
    ensures Leads(v, parts, w)
  {
    var longer := [v] + trail;
    forall i | 0 <= i < |parts|
      ensures longer[i].Record? && parts[i] in longer[i].fields && longer[i].fields[parts[i]] == longer[i + 1]
    {
      if i > 0 {
        assert longer[i] == trail[i - 1] && parts[i] == parts[1..][i - 1];
      }
    }
    assert LeadsAlong(longer, v, parts, w);
  }

  /** A field of that whole name comes first, then the way along the parts of the key. */
  ghost predicate Finds(context: map<string, Value>, key: string, w: Value) {
    if key in context then w == context[key]
    else exists parts :: PartsOf(key, parts) && Leads(Record(context), parts, w)
  }

  predicate Shows(v: Value, text: string) {
    match v
    case Absent => text == ""
    case Text(t) => text == t
    case Record(_) => text == "[object Object]"
  }

  /** The text of a key: of the value it finds, or nothing. */
  ghost predicate Says(context: map<string, Value>, key: string, text: string) {
    || (exists w :: Finds(context, key, w) && Shows(w, text))
    || (text == "" && forall w :: !Finds(context, key, w))
  }

  lemma FindsIsLookup(context: map<string, Value>, key: string, w: Value)
    requires IsKey(key)
    ensures Finds(context, key, w) ==> Lookup(context, key) == w
    ensures w == Lookup(context, key) && w != Absent ==> Finds(context, key, w)
  {
    CapturedKeyIsNormal(key);
    if key !in context {
      SplitIff(key, Split(key));
      if Finds(context, key, w) {
        var parts :| PartsOf(key, parts) && Leads(Record(context), parts, w);
        SplitIff(key, parts);
        var trail :| LeadsAlong(trail, Record(context), parts, w);
        LeadsDown(trail, Record(context), parts, w);
      }
      if w == Lookup(context, key) && w != Absent {
        DescentLeads(Record(context), Split(key));
      }
    }
  }

  lemma ShowsIsRendered(v: Value, text: string)
    ensures Shows(v, text) <==> text == RenderValue(v)
  {
  }

  lemma SaidIsRendered(context: map<string, Value>, key: string, text: string)
    requires IsKey(key) && Says(context, key, text)
    ensures text == RenderValue(Lookup(context, key))
  {
    var v := Lookup(context, key);
    FindsIsLookup(context, key, v);
    if w :| Finds(context, key, w) && Shows(w, text) {
      FindsIsLookup(context, key, w);
      ShowsIsRendered(w, text);
    } else {
      assert !Finds(context, key, v);
    }
  }

  lemma RenderedIsSaid(context: map<string, Value>, key: string)
    requires IsKey(key)
    ensures Says(context, key, RenderValue(Lookup(context, key)))
  {
    var v := Lookup(context, key);
    FindsIsLookup(context, key, v);
    if w :| Finds(context, key, w) {
      FindsIsLookup(context, key, w);
      ShowsIsRendered(w, RenderValue(v));
    }
  }

  /** Every key says exactly one text, and it is what the renderer puts in its place. */
  lemma SaysIff(context: map<string, Value>, key: string, text: string)
    requires IsKey(key)
    ensures Says(context, key, text) <==> text == Renderer(context)(key)
  {
    RenderedIsSaid(context, key);
    if Says(context, key, text) {
      SaidIsRendered(context, key, text);
    }
  }

  // ---------------------------------------------------------------- templates

  lemma {:induction false} ReplaceConcat(a: seq<Piece>, b: seq<Piece>, f: string -> string)
    ensures Replace(a + b, f) == Replace(a, f) + Replace(b, f)
  {
    if a == [] {
      assert a + b == b;
    } else {
      assert (a + b)[1..] == a[1..] + b && (a + b)[0] == a[0];
      ReplaceConcat(a[1..], b, f);
    }
  }

  lemma ReplaceAround(pre: string, token: string, key: string, post: string, f: string -> string)
    requires IsToken(token, key)
    ensures Replace(Scan(pre + (token + post)), f) == Replace(Scan(pre), f) + (f(key) + Replace(Scan(post), f))
  {
    EveryTokenIsFound(pre, token, key, post);
    ReplaceConcat(Scan(pre), [Token(key)] + Scan(post), f);
    assert ([Token(key)] + Scan(post))[1..] == Scan(post);
  }

  lemma TokenKeyIsKey(token: string, key: string)
    requires IsToken(token, key)
    ensures IsKey(key)
  {
    var a: nat, b: nat, c: nat :| IsTokenCutAt(token, key, a, b, c);
    assert forall i | 0 <= i < |key| :: key[i] == token[b + i];
  }

  /** A token anywhere in a template renders as what its key says, and what is around it as if it stood alone. */
  lemma TokenRendersAsSaid(pre: string, token: string, key: string, post: string, context: map<string, Value>,
                           text: string)
    requires IsToken(token, key) && Says(context, key, text)
    ensures Render(pre + (token + post), context) == Render(pre, context) + (text + Render(post, context))
  {
    TokenKeyIsKey(token, key);
    SaysIff(context, key, text);
    ReplaceAround(pre, token, key, post, Renderer(context));
  }

  /** Normalising writes every token as its bare key between braces. */
  lemma TokenNormalizes(pre: string, token: string, key: string, post: string)
    requires IsToken(token, key)
    ensures Normalize(pre + (token + post)) == Normalize(pre) + ("{{" + key + "}}" + Normalize(post))
  {
    TokenKeyIsKey(token, key);
    CapturedKeyIsNormal(key);
    ReplaceAround(pre, token, key, post, Canonical);
  }

  /** A text in which no token stands. */
  ghost predicate Plain(s: string) {
    forall lo: nat, hi: nat, key: string | lo <= hi <= |s| :: !IsToken(s[lo..hi], key)
  }

  lemma PlainTail(s: string)
    requires Plain(s) && s != ""
    ensures Plain(s[1..]) && MatchAt(s).None?
  {
    forall lo: nat, hi: nat, key: string | lo <= hi <= |s| - 1 ensures !IsToken(s[1..][lo..hi], key) {
      assert s[1..][lo..hi] == s[lo + 1..hi + 1];
    }
    if MatchAt(s).Some? {
      var n := MatchAt(s).value.length;
      assert s[0..n] == s[..n];
      MatchSound(s);
    }
  }

  lemma {:induction false} PlainScan(s: string, f: string -> string)
    requires Plain(s)
    ensures Replace(Scan(s), f) == s && TokenKeys(Scan(s)) == []
  {
    if s != "" {
      PlainTail(s);
      PlainScan(s[1..], f);
      assert Scan(s)[1..] == Scan(s[1..]) && s == [s[0]] + s[1..];
    }
  }

  lemma PlainTextRenders(s: string, context: map<string, Value>)
    requires Plain(s)
    ensures Render(s, context) == s
  {
    PlainScan(s, Renderer(context));
  }

  lemma PlainTextNormalizes(s: string)
    requires Plain(s)
    ensures Normalize(s) == s && ExtractKeys(s) == []
  {
    PlainScan(s, Canonical);
  }

  /** Text without tokens stays as it is. */
  lemma PlainTextStays(s: string, context: map<string, Value>)
    requires Plain(s)
    ensures Render(s, context) == s && Normalize(s) == s && ExtractKeys(s) == []
  {
    PlainTextRenders(s, context);
    PlainTextNormalizes(s);
  }

  // ---------------------------------------------------------------- keys

  lemma {:induction false} KeysConcat(a: seq<Piece>, b: seq<Piece>)
    ensures TokenKeys(a + b) == TokenKeys(a) + TokenKeys(b)
  {
    if a == [] {
      assert a + b == b;
    } else {
      assert (a + b)[1..] == a[1..] + b && (a + b)[0] == a[0];
      KeysConcat(a[1..], b);
    }
  }

  /** The last token of a template adds its key at the end of the list, unless the key is there already. */
  lemma LastTokenExtends(pre: string, token: string, key: string, rest: string)
    requires IsToken(token, key) && Plain(rest)
    ensures ExtractKeys(pre + (token + rest))
         == if key in ExtractKeys(pre) then ExtractKeys(pre) else ExtractKeys(pre) + [key]
  {
    TokenKeyIsKey(token, key);
    CapturedKeyIsNormal(key);
    EveryTokenIsFound(pre, token, key, rest);
    PlainScan(rest, Canonical);
    KeysConcat(Scan(pre), [Token(key)] + Scan(rest));
    assert ([Token(key)] + Scan(rest))[1..] == Scan(rest);
    var keys := TokenKeys(Scan(pre + (token + rest)));
    assert keys == TokenKeys(Scan(pre)) + [key];
    assert keys[..|keys| - 1] == TokenKeys(Scan(pre));
  }

  ghost predicate Blank(s: string) {
    forall i | 0 <= i < |s| :: IsSpace(s[i])
  }

  lemma {:induction false} TrimStartBlank(a: string, s: string)
    requires Blank(a) && s != "" && !IsSpace(s[0])
    ensures TrimStart(a + s) == s
  {
    if a == "" {
      assert a + s == s;
    } else {
      assert (a + s)[1..] == a[1..] + s;
      TrimStartBlank(a[1..], s);
    }
  }

  lemma {:induction false} TrimEndBlank(s: string, b: string)
    requires Blank(b) && s != "" && !IsSpace(s[|s| - 1])
    ensures TrimEnd(s + b) == s
    decreases |b|
  {
    if b == "" {
      assert s + b == s;
    } else {
      var n := |b| - 1;
      assert (s + b)[..|s + b| - 1] == s + b[..n] && (s + b)[|s + b| - 1] == b[n];
      TrimEndBlank(s, b[..n]);
    }
  }

  /** Spaces around a key and one dollar sign before it do not matter. */
  lemma KeyIsBared(a: string, dollar: string, key: string, b: string)
    requires Blank(a) && Blank(b) && (dollar == "" || dollar == "$") && IsKey(key)
    ensures NormalizeKey(a + (dollar + key + b)) == key
  {
    var s := dollar + key;
    assert IsKeyChar(key[0]) && IsKeyChar(key[|key| - 1]);
    assert s[|s| - 1] == key[|key| - 1];
    TrimStartBlank(a, s + b);
    TrimEndBlank(s, b);
    if dollar == "$" {
      assert s[1..] == key;
    } else {
      assert s == key;
    }
  }

  // ---------------------------------------------------------------- an example

  /** The shape the contexts of the application have: a record of records. */
  lemma NestedKeyRenders(pre: string, post: string, outer: string, inner: string, text: string,
                         context: map<string, Value>)
    requires IsKey(outer) && IsKey(inner) && '.' !in outer && '.' !in inner
    requires outer + "." + inner !in context && outer in context && context[outer].Record?
    requires inner in context[outer].fields && context[outer].fields[inner] == Text(text)
    ensures Render(pre + ("{{" + (outer + "." + inner) + "}}" + post), context)
         == Render(pre, context) + (text + Render(post, context))
  {
    var key, parts := outer + "." + inner, [outer, inner];
    assert forall i | 0 <= i < |key| :: IsKeyChar(key[i]);
    assert parts[1..] == [inner];
    assert PartsOf(key, parts);
    assert LeadsAlong([Record(context), context[outer], Text(text)], Record(context), parts, Text(text));
    assert Finds(context, key, Text(text));
    CanonicalIsToken(key);
    CapturedKeyIsNormal(key);
    TokenRendersAsSaid(pre, Canonical(key), key, post, context, text);
  }
}
