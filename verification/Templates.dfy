/** Message templates with `{{ key }}` tokens: scanning, normalising, key extraction and rendering. */
module Templates {
  import opened Common

  predicate IsKeyChar(c: char) {
    'a' <= c <= 'z' || 'A' <= c <= 'Z' || '0' <= c <= '9' || c == '.' || c == '_' || c == '-'
  }

  // ---------------------------------------------------------------- the token grammar

  ghost predicate SpacesIn(s: string, lo: nat, hi: nat) {
    lo <= hi <= |s| && forall i | lo <= i < hi :: IsSpace(s[i])
  }

  ghost predicate KeyIn(s: string, lo: nat, hi: nat) {
    lo <= hi <= |s| && forall i | lo <= i < hi :: IsKeyChar(s[i])
  }

  /** Opening braces, spaces up to `a`, a dollar sign or none up to `b`, the key up to `c`, spaces, closing braces. */
  ghost predicate IsTokenCutAt(text: string, key: string, a: nat, b: nat, c: nat) {
    && 2 <= a <= b < c <= |text| - 2
    && text[0] == '{' && text[1] == '{' && text[|text| - 2] == '}' && text[|text| - 1] == '}'
    && SpacesIn(text, 2, a) && (b == a || (b == a + 1 && text[a] == '$'))
    && KeyIn(text, b, c) && key == text[b..c] && SpacesIn(text, c, |text| - 2)
  }

  /** The texts matched by `\{\{\s*\$?([a-zA-Z0-9._-]+)\s*\}\}`, and the group they capture. */
  ghost predicate IsToken(text: string, key: string) {
    exists a, b, c :: IsTokenCutAt(text, key, a, b, c)
  }

  // ---------------------------------------------------------------- the scanner

  /** The end of the spaces from position `i`. */
  function SpacesEnd(s: string, i: nat): (j: nat)
    requires i <= |s|
    ensures SpacesIn(s, i, j) && (j < |s| ==> !IsSpace(s[j]))
    decreases |s| - i
  {
    if i < |s| && IsSpace(s[i]) then SpacesEnd(s, i + 1) else i
  }

  function KeyEnd(s: string, i: nat): (j: nat)
    requires i <= |s|
    ensures KeyIn(s, i, j) && (j < |s| ==> !IsKeyChar(s[j]))
    decreases |s| - i
  {
    if i < |s| && IsKeyChar(s[i]) then KeyEnd(s, i + 1) else i
  }

  /** The length of a match and the key it captures. */
  datatype Match = Match(length: nat, key: string)

  /** The match at the front of a text. */
  function MatchAt(s: string): (r: Option<Match>)
    ensures r.Some? ==> 4 < r.value.length <= |s|
  {
    if |s| < 2 || s[0] != '{' || s[1] != '{' then None
    else
      var a := SpacesEnd(s, 2);
      var b := if a < |s| && s[a] == '$' then a + 1 else a;
      var c := KeyEnd(s, b);
      var d := SpacesEnd(s, c);
      if b < c && d + 2 <= |s| && s[d] == '}' && s[d + 1] == '}' then Some(Match(d + 2, s[b..c])) else None
  }

  datatype Piece = Char(c: char) | Token(key: string)

  /** The length of the first piece of a text: a token or one character. */
  function Stride(s: string): (n: nat)
    ensures 0 < n && (s != "" ==> n <= |s|)
  {
    if MatchAt(s).Some? then MatchAt(s).value.length else 1
  }

  function FirstPiece(s: string): Piece
    requires s != ""
  {
    if MatchAt(s).Some? then Token(MatchAt(s).value.key) else Char(s[0])
  }

  /** A global replace visits the leftmost matches, one after the other. */
  function Scan(s: string): seq<Piece>
    decreases |s|
  {
    if s == "" then [] else [FirstPiece(s)] + Scan(s[Stride(s)..])
  }

  // ---------------------------------------------------------------- the scanner meets the grammar

  /** The scanner's way to cut a token is the only one. */
  lemma MatchComplete(s: string, n: nat, key: string, a: nat, b: nat, c: nat)
    requires n <= |s| && IsTokenCutAt(s[..n], key, a, b, c)
    ensures MatchAt(s) == Some(Match(n, key))
  {
    var t := s[..n];
    assert forall i | 0 <= i < n :: s[i] == t[i];
    assert !IsSpace(s[a]) by {
      assert IsKeyChar(t[b]);
    }
    assert SpacesEnd(s, 2) == a;
    assert !IsKeyChar(s[c]) by {
      assert c == n - 2 || IsSpace(t[c]);
    }
    assert s[b] != '$' by {
      assert IsKeyChar(t[b]);
    }
    assert KeyEnd(s, b) == c;
    assert SpacesEnd(s, c) == n - 2;
    SliceOfPrefix(s, n, b, c);
  }

  lemma SliceOfPrefix(s: string, n: nat, lo: nat, hi: nat)
    requires lo <= hi <= n <= |s|
    ensures s[..n][lo..hi] == s[lo..hi]
  {
    assert forall i | 0 <= i < hi - lo :: s[..n][lo..hi][i] == s[lo..hi][i];
  }

  lemma MatchSound(s: string)
    requires MatchAt(s).Some?
    ensures var m := MatchAt(s).value; IsToken(s[..m.length], m.key)
  {
    var m := MatchAt(s).value;
    var a := SpacesEnd(s, 2);
    var b := if a < |s| && s[a] == '$' then a + 1 else a;
    var c := KeyEnd(s, b);
    SliceOfPrefix(s, m.length, b, c);
    assert IsTokenCutAt(s[..m.length], m.key, a, b, c);
  }

  /** The scanner matches exactly the tokens of the grammar, and a text has at most one token at its front. */
  lemma MatchIff(s: string, n: nat, key: string)
    requires n <= |s|
    ensures MatchAt(s) == Some(Match(n, key)) <==> IsToken(s[..n], key)
  {
    if IsToken(s[..n], key) {
      var a, b, c :| IsTokenCutAt(s[..n], key, a, b, c);
      MatchComplete(s, n, key, a, b, c);
    }
    if MatchAt(s) == Some(Match(n, key)) {
      MatchSound(s);
    }
  }

  /** After its opening braces a token has no other opening brace. */
  lemma NoBraceInside(s: string, i: nat)
    requires MatchAt(s).Some? && 2 <= i < MatchAt(s).value.length
    ensures s[i] != '{'
  {
    var a := SpacesEnd(s, 2);
    var b := if a < |s| && s[a] == '$' then a + 1 else a;
    var c := KeyEnd(s, b);
    assert 2 <= i < a || i == a || b <= i < c || c <= i;
  }

  /** Whether a text begins with a token depends on the token alone. */
  lemma MatchTransfers(s: string, t: string)
    requires MatchAt(s).Some? && MatchAt(s).value.length <= |t|
    requires t[..MatchAt(s).value.length] == s[..MatchAt(s).value.length]
    ensures MatchAt(t) == MatchAt(s)
  {
    var m := MatchAt(s).value;
    MatchIff(s, m.length, m.key);
    MatchIff(t, m.length, m.key);
  }

  // ---------------------------------------------------------------- tokens never overlap

  lemma NoTokenAcross(pre: string, t: string)
    requires MatchAt(t).Some? && pre != ""
    ensures MatchAt(pre + t) == MatchAt(pre)
  {
    var s := pre + t;
    if MatchAt(pre).Some? {
      MatchTransfers(pre, s);
    } else if MatchAt(s).Some? {
      var n := MatchAt(s).value.length;
      assert s[|pre|] == '{' && s[|pre| + 1] == '{';
      if n <= |pre| {
        MatchTransfers(s, pre);
      } else if |pre| >= 2 {
        NoBraceInside(s, |pre|);
      } else {
        NoBraceInside(s, 2);
      }
    }
  }

  lemma SameFirstPiece(s: string, t: string)
    requires s != "" && t != "" && MatchAt(s) == MatchAt(t) && s[0] == t[0]
    ensures Stride(s) == Stride(t) && FirstPiece(s) == FirstPiece(t)
  {
  }

  lemma FirstPieceBeforeToken(pre: string, t: string)
    requires MatchAt(t).Some? && pre != ""
    ensures Scan(pre + t) == [FirstPiece(pre)] + Scan(pre[Stride(pre)..] + t)
  {
    NoTokenAcross(pre, t);
    SameFirstPiece(pre + t, pre);
    assert (pre + t)[Stride(pre)..] == pre[Stride(pre)..] + t;
  }

  /** A template can be cut in front of any token. */
  lemma {:induction false} CutBeforeToken(pre: string, t: string)
    requires MatchAt(t).Some?
    ensures Scan(pre + t) == Scan(pre) + Scan(t)
    decreases |pre|
  {
    if pre == "" {
      assert pre + t == t;
    } else {
      FirstPieceBeforeToken(pre, t);
      CutBeforeToken(pre[Stride(pre)..], t);
      Regroup(FirstPiece(pre), Scan(pre[Stride(pre)..]), Scan(t));
    }
  }

  lemma Regroup(p: Piece, a: seq<Piece>, b: seq<Piece>)
    ensures [p] + (a + b) == ([p] + a) + b
  {
  }

  lemma ScanToken(text: string, key: string, rest: string)
    requires IsToken(text, key)
    ensures MatchAt(text + rest).Some? && Scan(text + rest) == [Token(key)] + Scan(rest)
  {
    var s := text + rest;
    assert s[..|text|] == text && s[|text|..] == rest;
    MatchIff(s, |text|, key);
  }

  /** Every token of a template is found: scanning before it, the token, and scanning after it. */
  lemma EveryTokenIsFound(pre: string, text: string, key: string, post: string)
    requires IsToken(text, key)
    ensures Scan(pre + (text + post)) == Scan(pre) + ([Token(key)] + Scan(post))
  {
    ScanToken(text, key, post);
    CutBeforeToken(pre, text + post);
  }
}
