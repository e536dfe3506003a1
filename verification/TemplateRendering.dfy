/** What templates render to, and why normalising one changes nothing. */
module TemplateRendering {
  import opened Common
  import opened Templates

  // ---------------------------------------------------------------- keys

  function TrimStart(s: string): string {
    if s != "" && IsSpace(s[0]) then TrimStart(s[1..]) else s
  }

  function TrimEnd(s: string): string {
    if s != "" && IsSpace(s[|s| - 1]) then TrimEnd(s[..|s| - 1]) else s
  }

  /** `normalizeVariableKey`. */
  function NormalizeKey(key: string): string {
    var trimmed := TrimEnd(TrimStart(key));
    if trimmed != "" && trimmed[0] == '$' then trimmed[1..] else trimmed
  }

  ghost predicate IsKey(key: string) {
    key != "" && KeyIn(key, 0, |key|)
  }

  /** A captured key is already normal. */
  lemma CapturedKeyIsNormal(key: string)
    requires IsKey(key)
    ensures NormalizeKey(key) == key
  {
    assert IsKeyChar(key[0]) && IsKeyChar(key[|key| - 1]);
  }

  // ---------------------------------------------------------------- pieces

  /** What a replacer function makes of a template. */
  function Replace(pieces: seq<Piece>, replacer: string -> string): string {
    if pieces == [] then ""
    else (match pieces[0] case Char(c) => [c] case Token(key) => replacer(key)) + Replace(pieces[1..], replacer)
  }

  function TokenKeys(pieces: seq<Piece>): seq<string> {
    if pieces == [] then []
    else (match pieces[0] case Char(_) => [] case Token(key) => [NormalizeKey(key)]) + TokenKeys(pieces[1..])
  }

  /** `Array.from(new Set(keys))`. */
  function Distinct(keys: seq<string>): (r: seq<string>)
    ensures forall k :: k in r <==> k in keys
    ensures forall i, j | 0 <= i < j < |r| :: r[i] != r[j]
  {
    if keys == [] then []
    else
      var init, last := Distinct(keys[..|keys| - 1]), keys[|keys| - 1];
      assert keys == keys[..|keys| - 1] + [last];
      if last in init then init else init + [last]
  }

  // ---------------------------------------------------------------- the operations

  function Canonical(key: string): string {
    "{{" + NormalizeKey(key) + "}}"
  }

  /** `normalizeVariableTemplate`. */
  function Normalize(s: string): string {
    Replace(Scan(s), Canonical)
  }

  /** `extractVariableKeys`. */
  function ExtractKeys(s: string): seq<string> {
    Distinct(TokenKeys(Scan(s)))
  }

  /** A context value: null or undefined, anything with a string form, or an object. */
  datatype Value = Absent | Text(text: string) | Record(fields: map<string, Value>)

  /** `renderValue`. */
  function RenderValue(v: Value): string {
    match v
    case Absent => ""
    case Text(t) => t
    case Record(_) => "[object Object]"
  }

  /** `key.split('.')`. */
  function Split(key: string): (parts: seq<string>)
    ensures parts != []
  {
    if key == "" then [""]
    else
      var rest := Split(key[1..]);
      if key[0] == '.' then [""] + rest else [[key[0]] + rest[0]] + rest[1..]
  }

  function Descend(v: Value, path: seq<string>): Value {
    if path == [] then v
    else if v.Record? && path[0] in v.fields then Descend(v.fields[path[0]], path[1..])
    else Absent
  }

  /** `getVariableValue`. */
  function Lookup(context: map<string, Value>, rawKey: string): Value {
    var key := NormalizeKey(rawKey);
    if key in context then context[key] else Descend(Record(context), Split(key))
  }

  /** `renderVariableTemplate`. */
  function Render(s: string, context: map<string, Value>): string {
    Replace(Scan(s), Renderer(context))
  }

  function Renderer(context: map<string, Value>): string -> string {
    key => RenderValue(Lookup(context, key))
  }

  // ---------------------------------------------------------------- normalising keeps the scan

  lemma MatchedKey(s: string)
    requires MatchAt(s).Some?
    ensures IsKey(MatchAt(s).value.key)
  {
  }

  /** Writing a token in canonical form gives a token with the same key. */
  lemma CanonicalIsToken(key: string)
    requires IsKey(key)
    ensures IsToken(Canonical(key), key)
  {
    CapturedKeyIsNormal(key);
    var text := Canonical(key);
    assert forall i | 2 <= i < |key| + 2 :: text[i] == key[i - 2];
    assert text[2..|key| + 2] == key;
    assert IsTokenCutAt(text, key, 2, 2, |key| + 2);
  }

  lemma NormalizeToken(s: string)
    requires MatchAt(s).Some?
    ensures Normalize(s) == Canonical(MatchAt(s).value.key) + Normalize(s[MatchAt(s).value.length..])
    ensures Normalize(s)[0] == '{' && Normalize(s)[1] == '{'
  {
    var m := MatchAt(s).value;
    assert Scan(s)[1..] == Scan(s[m.length..]);
  }

  lemma NormalizeChar(s: string)
    requires s != "" && MatchAt(s).None?
    ensures Normalize(s) == [s[0]] + Normalize(s[1..])
  {
    assert Scan(s)[1..] == Scan(s[1..]);
  }

  lemma NormalizeEmpty()
    ensures Normalize("") == ""
  {
  }

  ghost predicate NoBrace(s: string, n: nat) {
    n <= |s| && forall i | 0 <= i < n :: s[i] != '{'
  }

  lemma TokenHasBrace(s: string, n: nat)
    requires MatchAt(s).Some? && n > 0
    ensures !NoBrace(Normalize(s), n)
  {
    NormalizeToken(s);
  }

  lemma BracelessTail(s: string, n: nat)
    requires s != "" && MatchAt(s).None? && NoBrace(Normalize(s), n) && n > 0
    ensures NoBrace(Normalize(s[1..]), n - 1)
  {
    NormalizeChar(s);
    var tail := Normalize(s[1..]);
    assert forall i | 0 <= i < |tail| :: tail[i] == Normalize(s)[i + 1];
  }

  /** The texts begin with the same `n` characters. */
  ghost predicate SameStart(s: string, t: string, n: nat) {
    n <= |s| && n <= |t| && s[..n] == t[..n]
  }

  lemma StartGrows(s: string, n: nat)
    requires s != "" && MatchAt(s).None? && n > 0 && SameStart(s[1..], Normalize(s[1..]), n - 1)
    ensures SameStart(s, Normalize(s), n)
  {
    NormalizeChar(s);
    assert s[..n] == [s[0]] + s[1..][..n - 1];
    assert Normalize(s)[..n] == [s[0]] + Normalize(s[1..])[..n - 1];
  }

  /** Up to its first opening brace a normalised text is the text. */
  lemma {:induction false} BracelessPrefixStays(s: string, n: nat)
    requires NoBrace(Normalize(s), n)
    ensures SameStart(s, Normalize(s), n)
    decreases |s|, 1
  {
    if s == "" {
      NormalizeEmpty();
    } else if n > 0 {
      if MatchAt(s).Some? {
        TokenHasBrace(s, n);
      } else {
        BracelessChar(s, n);
      }
    }
  }

  lemma {:induction false} BracelessChar(s: string, n: nat)
    requires s != "" && MatchAt(s).None? && n > 0 && NoBrace(Normalize(s), n)
    ensures SameStart(s, Normalize(s), n)
    decreases |s|, 0
  {
    BracelessTail(s, n);
    BracelessPrefixStays(s[1..], n - 1);
    StartGrows(s, n);
  }

  /** A token after normalising was a token before. */
  lemma BodyCarriesOver(s: string)
    requires MatchAt("{{" + Normalize(s)).Some?
    ensures MatchAt("{{" + s).Some?
  {
    var t, rest := "{{" + Normalize(s), Normalize(s);
    var n := MatchAt(t).value.length;
    forall i | 0 <= i < n - 2 ensures rest[i] != '{' {
      NoBraceInside(t, i + 2);
      assert t[i + 2] == rest[i];
    }
    BracelessPrefixStays(s, n - 2);
    assert ("{{" + s)[..n] == "{{" + s[..n - 2];
    assert t[..n] == "{{" + rest[..n - 2];
    MatchTransfers(t, "{{" + s);
  }

  /** Normalising what follows a character never makes a token out of it. */
  lemma NoNewToken(c: char, s: string)
    requires MatchAt([c] + s).None?
    ensures MatchAt([c] + Normalize(s)).None?
  {
    var t := [c] + Normalize(s);
    if MatchAt(t).Some? {
      assert c == t[0] == '{' && Normalize(s)[0] == t[1] == '{' && Normalize(s)[1] == t[2];
      NoBraceInside(t, 2);
      if MatchAt(s).Some? {
        NormalizeToken(s);
      } else {
        NormalizeChar(s);
        assert t == "{{" + Normalize(s[1..]) && [c] + s == "{{" + s[1..];
        BodyCarriesOver(s[1..]);
      }
    }
  }

  lemma ScanCanonical(key: string, rest: string)
    requires IsKey(key)
    ensures Scan(Canonical(key) + rest) == [Token(key)] + Scan(rest)
  {
    CanonicalIsToken(key);
    ScanToken(Canonical(key), key, rest);
  }

  lemma ScanChar(c: char, s: string)
    requires MatchAt([c] + s).None?
    ensures Scan([c] + s) == [Char(c)] + Scan(s) && Scan([c] + Normalize(s)) == [Char(c)] + Scan(Normalize(s))
  {
    NoNewToken(c, s);
    assert ([c] + s)[1..] == s && ([c] + Normalize(s))[1..] == Normalize(s);
  }

  /** Normalising creates, merges and destroys no token: the scan is the same, character by character and key by key. */
  lemma {:induction false} NormalizeKeepsScan(s: string)
    ensures Scan(Normalize(s)) == Scan(s)
    decreases |s|
  {
    if s != "" {
      if MatchAt(s).Some? {
        var m := MatchAt(s).value;
        MatchedKey(s);
        NormalizeToken(s);
        ScanCanonical(m.key, Normalize(s[m.length..]));
        NormalizeKeepsScan(s[m.length..]);
      } else {
        NormalizeChar(s);
        assert [s[0]] + s[1..] == s;
        ScanChar(s[0], s[1..]);
        NormalizeKeepsScan(s[1..]);
      }
    }
  }

  // ---------------------------------------------------------------- main results

  /** Rendering the normalised template equals rendering the original, in every context. */
  lemma NormalizePreservesRendering(s: string, context: map<string, Value>)
    ensures Render(Normalize(s), context) == Render(s, context)
  {
    NormalizeKeepsScan(s);
  }

  lemma NormalizeIsIdempotent(s: string)
    ensures Normalize(Normalize(s)) == Normalize(s)
  {
    NormalizeKeepsScan(s);
  }

  lemma NormalizePreservesKeys(s: string)
    ensures ExtractKeys(Normalize(s)) == ExtractKeys(s)
  {
    NormalizeKeepsScan(s);
  }

  lemma {:induction false} ReplaceDependsOnKeys(pieces: seq<Piece>, f: string -> string, g: string -> string)
    requires forall i | 0 <= i < |pieces| && pieces[i].Token? :: f(pieces[i].key) == g(pieces[i].key)
    ensures Replace(pieces, f) == Replace(pieces, g)
  {
    if pieces != [] {
      ReplaceDependsOnKeys(pieces[1..], f, g);
    }
  }

  lemma {:induction false} TokenIsListed(pieces: seq<Piece>, i: nat)
    requires i < |pieces| && pieces[i].Token?
    ensures NormalizeKey(pieces[i].key) in TokenKeys(pieces)
    decreases |pieces|
  {
    if i > 0 {
      TokenIsListed(pieces[1..], i - 1);
    }
  }

  lemma {:induction false} ScannedKeys(s: string, i: nat)
    requires i < |Scan(s)| && Scan(s)[i].Token?
    ensures IsKey(Scan(s)[i].key)
    decreases |s|
  {
    var m := MatchAt(s);
    if m.Some? {
      MatchedKey(s);
      if i > 0 {
        ScannedKeys(s[m.value.length..], i - 1);
      }
    } else {
      ScannedKeys(s[1..], i - 1);
    }
  }

  lemma TokenKeyIsExtracted(s: string, i: nat)
    requires i < |Scan(s)| && Scan(s)[i].Token?
    ensures Scan(s)[i].key in ExtractKeys(s)
  {
    TokenIsListed(Scan(s), i);
    ScannedKeys(s, i);
    CapturedKeyIsNormal(Scan(s)[i].key);
  }

  /** The two functions agree on all listed keys. */
  ghost predicate Agree(f: string -> string, g: string -> string, keys: seq<string>) {
    forall i | 0 <= i < |keys| :: f(keys[i]) == g(keys[i])
  }

  lemma ReplaceDependsOnExtractedKeys(s: string, f: string -> string, g: string -> string)
    requires Agree(f, g, ExtractKeys(s))
    ensures Replace(Scan(s), f) == Replace(Scan(s), g)
  {
    var pieces := Scan(s);
    forall i | 0 <= i < |pieces| && pieces[i].Token? ensures f(pieces[i].key) == g(pieces[i].key) {
      TokenKeyIsExtracted(s, i);
    }
    ReplaceDependsOnKeys(pieces, f, g);
  }

  /** A rendering depends on the context only through the values of the extracted keys. */
  lemma RenderDependsOnExtractedKeys(s: string, context: map<string, Value>, other: map<string, Value>)
    requires Agree(Renderer(context), Renderer(other), ExtractKeys(s))
    ensures Render(s, context) == Render(s, other)
  {
    ReplaceDependsOnExtractedKeys(s, Renderer(context), Renderer(other));
  }
}
