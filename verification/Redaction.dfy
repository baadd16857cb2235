/** The redaction pass of the collaboration store: the secret pattern, its substitution in a
    string, and the recursive clean-up of nested values. */
module Redaction {
  import opened JsonValues
  import opened Sequences
  import opened Substitution

  const REDACTED := "[REDACTED]"
  const OMITTED := "[omitted_by_external_collaboration_store]"
  const MAX_TEXT := 30000

  function SensitiveKeys(): set<string> {
    {"api_key", "token", "password", "secret", "raw_prompt", "raw_content"}
  }

  /** The words of the alternation `api[_-]?key|token|password|secret`. */
  function SecretWords(): seq<string> {
    ["apikey", "api_key", "api-key", "token", "password", "secret"]
  }

  // ---------------------------------------------------------------- the secret pattern

  /** Case folding of the `(?i)` flag on the letters of the secret words. */
  function Fold(c: char): char {
    if 'A' <= c <= 'Z' then c + ('a' - 'A')
    else if c == '\U{212A}' then 'k'
    else if c == '\U{017F}' then 's'
    else if c == '\U{0130}' || c == '\U{0131}' then 'i'
    else c
  }

  /** The class `\s` of a text pattern. */
  predicate IsSpace(c: char) {
    || c == ' ' || '\U{0009}' <= c <= '\U{000D}' || '\U{001C}' <= c <= '\U{001F}'
    || c == '\U{0085}' || c == '\U{00A0}' || c == '\U{1680}' || '\U{2000}' <= c <= '\U{200A}'
    || c == '\U{2028}' || c == '\U{2029}' || c == '\U{202F}' || c == '\U{205F}' || c == '\U{3000}'
  }

  predicate IsSeparator(c: char) {
    c == ':' || c == '='
  }

  /** The class `[^\s,;]`. */
  predicate IsValueChar(c: char) {
    !IsSpace(c) && c != ',' && c != ';'
  }

  predicate StartsWith(s: string, word: string) {
    |word| <= |s| && forall i :: 0 <= i < |word| ==> Fold(s[i]) == word[i]
  }

  /** Length of the word at the head of s, 0 when there is none. */
  function KeyLength(s: string, words: seq<string>): (n: nat)
    ensures n <= |s|
    ensures n > 0 ==> exists w :: w in words && |w| == n && StartsWith(s, w)
  {
    if words == [] then 0
    else if StartsWith(s, words[0]) then |words[0]|
    else KeyLength(s, words[1..])
  }

  /** Length of the longest head of s whose characters satisfy p. */
  function Span(s: string, p: char -> bool): (n: nat)
    ensures n <= |s|
    ensures forall i :: 0 <= i < n ==> p(s[i])
    ensures n < |s| ==> !p(s[n])
  {
    if s != [] && p(s[0]) then 1 + Span(s[1..], p) else 0
  }

  /** Length of the match of `\s*[:=]\s*[^\s,;]+` at the head of s, 0 when there is none. */
  function AssignmentLength(s: string): (n: nat)
    ensures n <= |s|
  {
    var j := Span(s, IsSpace);
    if j == |s| || !IsSeparator(s[j]) then 0
    else
      var v := j + 1 + Span(s[j + 1..], IsSpace);
      var value := Span(s[v..], IsValueChar);
      if value == 0 then 0 else v + value
  }

  /** Length of the match of a word and an assignment at the head of s, 0 when there is none. */
  function MatchLength(s: string, words: seq<string>): (n: nat)
    ensures n <= |s|
  {
    var k := KeyLength(s, words);
    if k == 0 || AssignmentLength(s[k..]) == 0 then 0 else k + AssignmentLength(s[k..])
  }

  /** The match of the store's `_SECRET` pattern at the head of s. */
  function SecretLength(s: string): (n: nat) {
    MatchLength(s, SecretWords())
  }

  /** s starts with spaces, a separator at j, spaces and a value character at v. */
  ghost predicate Assigns(s: string, j: nat, v: nat) {
    && j < v < |s|
    && (forall i :: 0 <= i < j ==> IsSpace(s[i]))
    && IsSeparator(s[j])
    && (forall i :: j < i < v ==> IsSpace(s[i]))
    && IsValueChar(s[v])
  }

  /** A secret is spelled at the head of s: a word, then an assignment. */
  ghost predicate Spelled(s: string, words: seq<string>) {
    exists w, j: nat, v: nat :: w in words && w != [] && StartsWith(s, w) && Assigns(s[|w|..], j, v)
  }

  ghost predicate Holds(s: string, words: seq<string>) {
    exists at: nat :: at <= |s| && Spelled(s[at..], words)
  }

  ghost predicate HoldsSecret(s: string) {
    Holds(s, SecretWords())
  }

  ghost predicate Differ(a: string, b: string) {
    exists i :: 0 <= i < |a| && i < |b| && a[i] != b[i]
  }

  /** No word can be read where another one starts. */
  ghost predicate PrefixFree(words: seq<string>) {
    forall a, b :: a in words && b in words && a != b ==> Differ(a, b)
  }

  /** Words start with a value character. */
  ghost predicate ValueStart(words: seq<string>) {
    forall w, c :: w in words && w != [] && Fold(c) == w[0] ==> IsValueChar(c)
  }

  /** The marker starts with a value character that no word contains, and no word can be read from
      a position inside the marker. */
  ghost predicate Foreign(words: seq<string>, marker: string) {
    && marker != [] && IsValueChar(marker[0]) && !IsSeparator(marker[0])
    && (forall w, i :: w in words && 0 <= i < |w| ==> w[i] != Fold(marker[0]))
    && (forall w, i :: w in words && 0 <= i < |marker| ==> Differ(w, Map(marker[i..], Fold)))
  }

  lemma SecretWordsPrefixFree()
    ensures PrefixFree(SecretWords()) && ValueStart(SecretWords())
  {
    forall a, b | a in SecretWords() && b in SecretWords() && a != b ensures Differ(a, b) {
      assert a[0] != b[0] || a[3] != b[3];
    }
  }

  /** The first letters of the secret words; the marker shows no such pair. */
  predicate OddStart(w: string) {
    |w| >= 2 && ((w[0] == 'a' && w[1] == 'p') || (w[0] == 't' && w[1] == 'o') || w[0] == 'p' || w[0] == 's')
  }

  lemma SecretWordLetters(w: string)
    requires w in SecretWords()
    ensures OddStart(w) && '[' !in w
  {
  }

  lemma MarkerLetters(w: string, i: nat)
    requires OddStart(w) && i < |REDACTED|
    ensures Differ(w, Map(REDACTED[i..], Fold))
  {
    var m := Map(REDACTED[i..], Fold);
    assert m[0] == Fold(REDACTED[i]);
    if i == 4 || i == 6 {
      assert m[1] == Fold(REDACTED[i + 1]);
      assert w[1] != m[1] || w[0] != m[0];
    } else {
      assert w[0] != m[0];
    }
  }

  lemma ForeignLetters(words: seq<string>)
    requires forall w :: w in words ==> OddStart(w) && '[' !in w
    ensures Foreign(words, REDACTED)
  {
    forall w, i | w in words && 0 <= i < |REDACTED| ensures Differ(w, Map(REDACTED[i..], Fold)) {
      MarkerLetters(w, i);
    }
  }

  lemma MarkerForeign()
    ensures Foreign(SecretWords(), REDACTED)
  {
    forall w | w in SecretWords() ensures OddStart(w) && '[' !in w {
      SecretWordLetters(w);
    }
    ForeignLetters(SecretWords());
  }

  lemma NotBoth(s: string, a: string, b: string)
    requires Differ(a, b)
    ensures !StartsWith(s, a) || !StartsWith(s, b)
  {
  }

  lemma {:induction false} KeyLengthIsWord(s: string, words: seq<string>, w: string)
    requires w in words && StartsWith(s, w) && PrefixFree(words)
    ensures KeyLength(s, words) == |w|
  {
    if words[0] != w {
      NotBoth(s, words[0], w);
      KeyLengthIsWord(s, words[1..], w);
    }
  }

  lemma SpanIs(s: string, p: char -> bool, n: nat)
    requires n < |s| && !p(s[n])
    requires forall i :: 0 <= i < n ==> p(s[i])
    ensures Span(s, p) == n
  {
  }

  lemma AssignmentFound(s: string) returns (j: nat, v: nat)
    requires AssignmentLength(s) > 0
    ensures Assigns(s, j, v)
  {
    j := Span(s, IsSpace);
    var n := Span(s[j + 1..], IsSpace);
    v := j + 1 + n;
    forall i | j < i < v ensures IsSpace(s[i]) {
      assert s[i] == s[j + 1..][i - j - 1];
    }
  }

  lemma AssignmentMatches(s: string, j: nat, v: nat)
    requires Assigns(s, j, v)
    ensures AssignmentLength(s) > 0
  {
    SpanIs(s, IsSpace, j);
    SpanIs(s[j + 1..], IsSpace, v - j - 1);
    assert s[v..][0] == s[v];
  }

  lemma MatchIsSpelled(s: string, words: seq<string>)
    requires MatchLength(s, words) > 0
    ensures Spelled(s, words)
  {
    var k := KeyLength(s, words);
    var w :| w in words && |w| == k && StartsWith(s, w);
    var j, v := AssignmentFound(s[k..]);
  }

  lemma SpelledIsMatch(s: string, words: seq<string>)
    requires Spelled(s, words) && PrefixFree(words)
    ensures MatchLength(s, words) > 0
  {
    var w, j: nat, v: nat :| w in words && w != [] && StartsWith(s, w) && Assigns(s[|w|..], j, v);
    KeyLengthIsWord(s, words, w);
    AssignmentMatches(s[|w|..], j, v);
  }

  /** The matcher succeeds at the head of a text exactly when a secret is spelled there. */
  lemma SecretMatchSpelled(s: string)
    ensures SecretLength(s) > 0 <==> Spelled(s, SecretWords())
  {
    var words := SecretWords();
    SecretWordsPrefixFree();
    if MatchLength(s, words) > 0 {
      MatchIsSpelled(s, words);
    }
    if Spelled(s, words) {
      SpelledIsMatch(s, words);
    }
  }

  // ---------------------------------------------------------------- substitution

  /** `_SECRET.sub("[REDACTED]", s)[:30000]` */
  function Redact(s: string): (r: string)
    ensures |r| <= MAX_TEXT
  {
    Prefix(Substitute(s, SecretLength, REDACTED), MAX_TEXT)
  }

  lemma AssignmentReflected(s: string, t: string, p: nat, j: nat, v: nat)
    requires Assigns(t, j, v)
    requires p <= |s| && p <= |t| && (forall i :: 0 <= i < p ==> s[i] == t[i]) && (p == |s| ==> |t| == p)
    requires p < |s| ==> p < |t| && IsValueChar(s[p]) && IsValueChar(t[p]) && !IsSeparator(t[p])
    ensures Assigns(s, j, v)
  {
  }

  /** A secret spelled across the start of a replacement was spelled in the original text. */
  lemma SpellingReflected(s: string, t: string, p: nat, words: seq<string>, marker: string)
    requires Spelled(t, words) && Foreign(words, marker)
    requires 0 < p <= |s| && p <= |t| && s[..p] == t[..p] && (p == |s| ==> |t| == p)
    requires p < |s| ==> p < |t| && t[p] == marker[0] && IsValueChar(s[p])
    ensures Spelled(s, words)
  {
    var w, j: nat, v: nat :| w in words && w != [] && StartsWith(t, w) && Assigns(t[|w|..], j, v);
    assert forall i :: 0 <= i < p ==> s[i] == t[i] by {
      assert forall i :: 0 <= i < p ==> s[..p][i] == t[..p][i];
    }
    assert |w| <= p;
    AssignmentReflected(s[|w|..], t[|w|..], p - |w|, j, v);
    assert StartsWith(s, w);
  }

  lemma ReflectedAt(s: string, t: string, p: nat, words: seq<string>, marker: string)
    requires Foreign(words, marker) && PrefixFree(words) && ValueStart(words)
    requires 0 < p && Rewritten(s, t, p, u => MatchLength(u, words), marker) && MatchLength(t, words) > 0
    ensures MatchLength(s, words) > 0
  {
    MatchIsSpelled(t, words);
    if p < |s| {
      assert t[p] == t[p..][0] == marker[0];
      MatchIsSpelled(s[p..], words);
      var w :| w in words && w != [] && StartsWith(s[p..], w);
      assert s[p..][0] == s[p];
    }
    SpellingReflected(s, t, p, words, marker);
    SpelledIsMatch(s, words);
  }

  lemma SecretsReflected()
    ensures Reflects(SecretLength, REDACTED)
  {
    var words := SecretWords();
    SecretWordsPrefixFree();
    MarkerForeign();
    forall s, t, p: nat | 0 < p && Rewritten(s, t, p, SecretLength, REDACTED) && SecretLength(t) > 0
      ensures SecretLength(s) > 0
    {
      ReflectedAt(s, t, p, words, REDACTED);
    }
  }

  lemma WordNotInMarker(marker: string, rest: string, i: nat, words: seq<string>)
    requires i < |marker| && Foreign(words, marker)
    ensures KeyLength((marker + rest)[i..], words) == 0
  {
    var u := (marker + rest)[i..];
    forall w | w in words ensures !StartsWith(u, w) {
      var m := Map(marker[i..], Fold);
      assert Differ(w, m);
      var q :| 0 <= q < |w| && q < |m| && w[q] != m[q];
      assert u == marker[i..] + rest;
    }
  }

  lemma MarkerInert()
    ensures Inert(SecretLength, REDACTED)
  {
    var words := SecretWords();
    MarkerForeign();
    forall rest: string, i: nat | i < |REDACTED| ensures SecretLength((REDACTED + rest)[i..]) == 0 {
      WordNotInMarker(REDACTED, rest, i, words);
    }
  }

  lemma SpelledInLonger(s: string, t: string, words: seq<string>)
    requires Spelled(s, words) && s <= t
    ensures Spelled(t, words)
  {
    var w, j: nat, v: nat :| w in words && w != [] && StartsWith(s, w) && Assigns(s[|w|..], j, v);
    assert StartsWith(t, w);
    assert s[|w|..] <= t[|w|..];
    assert Assigns(t[|w|..], j, v);
  }

  lemma NoMatchAt(s: string, at: nat)
    requires at <= |Substitute(s, SecretLength, REDACTED)|
    ensures SecretLength(Substitute(s, SecretLength, REDACTED)[at..]) == 0
  {
    SecretsReflected();
    MarkerInert();
    SubstituteLeavesNoMatch(s, at, SecretLength, REDACTED);
  }

  lemma NoSecretAt(s: string, at: nat)
    requires at <= |Redact(s)|
    ensures !Spelled(Redact(s)[at..], SecretWords())
  {
    var t := Substitute(s, SecretLength, REDACTED);
    NoMatchAt(s, at);
    SecretMatchSpelled(t[at..]);
    if Spelled(Redact(s)[at..], SecretWords()) {
      SpelledInLonger(Redact(s)[at..], t[at..], SecretWords());
    }
  }

  /** No text holds a secret after redaction. */
  lemma RedactRemovesSecrets(s: string)
    ensures !HoldsSecret(Redact(s))
  {
    forall at: nat | at <= |Redact(s)| ensures !Spelled(Redact(s)[at..], SecretWords()) {
      NoSecretAt(s, at);
    }
  }

  /** A text is left alone exactly when it is short enough and holds no secret. */
  lemma RedactFixed(s: string)
    ensures Redact(s) == s <==> |s| <= MAX_TEXT && !HoldsSecret(s)
  {
    RedactRemovesSecrets(s);
    if |s| <= MAX_TEXT && !HoldsSecret(s) {
      forall i: nat | i <= |s| ensures SecretLength(s[i..]) == 0 {
        SecretMatchSpelled(s[i..]);
      }
      SubstituteKeepsClean(s, SecretLength, REDACTED);
    }
  }

  lemma RedactIdempotent(s: string)
    ensures Redact(Redact(s)) == Redact(s)
  {
    RedactRemovesSecrets(s);
    RedactFixed(Redact(s));
  }

  /** Identifiers carry no separator, so storing them does not change them. */
  lemma RedactKeepsIdentifier(s: string)
    requires |s| <= MAX_TEXT && forall i :: 0 <= i < |s| ==> !IsSeparator(s[i])
    ensures Redact(s) == s
  {
    RedactFixed(s);
  }

  // ---------------------------------------------------------------- what is replaced and what is kept

  /** The first n characters of s are a whole secret: a word, an assignment and its value up to the
      first character that cannot belong to it. */
  ghost predicate SecretOf(s: string, n: nat, words: seq<string>) {
    exists w, j: nat, v: nat :: w in words && StartsWith(s, w) && w != [] && Assigns(s[|w|..], j, v) && ValueEnds(s, |w| + v, n)
  }

  /** The value that starts at v goes on to position n and no further. */
  ghost predicate ValueEnds(s: string, v: nat, n: nat) {
    v < n <= |s| && (forall i :: v <= i < n ==> IsValueChar(s[i])) && (n < |s| ==> !IsValueChar(s[n]))
  }

  lemma {:induction false} SpanEnds(s: string, p: char -> bool, n: nat)
    requires n <= |s| && (forall i :: 0 <= i < n ==> p(s[i])) && (n < |s| ==> !p(s[n]))
    ensures Span(s, p) == n
  {
    if n > 0 {
      SpanEnds(s[1..], p, n - 1);
    }
  }

  lemma ValueSpan(s: string, v: nat, n: nat)
    requires ValueEnds(s, v, n)
    ensures Span(s[v..], IsValueChar) == n - v
  {
    var u := s[v..];
    assert forall i :: 0 <= i < |u| ==> u[i] == s[v + i];
    SpanEnds(u, IsValueChar, n - v);
  }

  lemma AssignmentWhole(s: string, j: nat, v: nat, n: nat)
    requires Assigns(s, j, v) && ValueEnds(s, v, n)
    ensures AssignmentLength(s) == n
  {
    SpanIs(s, IsSpace, j);
    SpanIs(s[j + 1..], IsSpace, v - j - 1);
    ValueSpan(s, v, n);
  }

  lemma AssignmentTaken(s: string) returns (j: nat, v: nat)
    requires AssignmentLength(s) > 0
    ensures Assigns(s, j, v) && ValueEnds(s, v, AssignmentLength(s))
  {
    j, v := AssignmentFound(s);
    SpanIs(s, IsSpace, j);
    SpanIs(s[j + 1..], IsSpace, v - j - 1);
    var u := s[v..];
    assert forall i :: 0 <= i < |u| ==> u[i] == s[v + i];
  }

  lemma WholeFrom(s: string, k: nat, v: nat, n: nat)
    requires k <= |s| && n >= k
    ensures ValueEnds(s[k..], v, n - k) <==> ValueEnds(s, k + v, n)
  {
    var u := s[k..];
    assert forall i :: 0 <= i < |u| ==> u[i] == s[k + i];
    if ValueEnds(u, v, n - k) {
      assert forall i :: k + v <= i < n ==> s[i] == u[i - k];
    }
  }

  lemma MatchIsWhole(s: string, n: nat, words: seq<string>)
    requires n > 0 && MatchLength(s, words) == n
    ensures SecretOf(s, n, words)
  {
    hide AssignmentLength, Assigns, ValueEnds;
    var k := KeyLength(s, words);
    var w :| w in words && |w| == k && StartsWith(s, w);
    var j, v := AssignmentTaken(s[k..]);
    WholeFrom(s, k, v, n);
  }

  lemma WholeIsMatch(s: string, n: nat, words: seq<string>)
    requires PrefixFree(words) && SecretOf(s, n, words)
    ensures MatchLength(s, words) == n
  {
    hide AssignmentLength, Assigns, PrefixFree, KeyLength;
    var w, j: nat, v: nat :| w in words && StartsWith(s, w) && w != [] && Assigns(s[|w|..], j, v) && ValueEnds(s, |w| + v, n);
    KeyLengthIsWord(s, words, w);
    WholeFrom(s, |w|, v, n);
    AssignmentWhole(s[|w|..], j, v, n - |w|);
  }

  /** The matcher takes exactly the whole secret at the head of a text. */
  lemma SecretLengthExact(s: string, n: nat)
    requires n > 0
    ensures SecretLength(s) == n <==> SecretOf(s, n, SecretWords())
  {
    SecretWordsPrefixFree();
    hide SecretWords, MatchLength, SecretOf, PrefixFree;
    var words := SecretWords();
    if MatchLength(s, words) == n {
      MatchIsWhole(s, n, words);
    }
    if SecretOf(s, n, words) {
      WholeIsMatch(s, n, words);
    }
  }

  /** A piece of a text: a character that stays or a secret that is hidden. */
  datatype Piece = Kept(c: char) | Hidden(secret: string)

  function Original(pieces: seq<Piece>): string {
    if pieces == [] then []
    else (if pieces[0].Kept? then [pieces[0].c] else pieces[0].secret) + Original(pieces[1..])
  }

  function Shown(pieces: seq<Piece>): string {
    if pieces == [] then []
    else (if pieces[0].Kept? then [pieces[0].c] else "[REDACTED]") + Shown(pieces[1..])
  }

  /** Read from left to right, every whole secret is hidden where it starts, and a character stays
      only where no secret starts. */
  ghost predicate HidesSecrets(pieces: seq<Piece>) {
    pieces != [] ==>
      && (pieces[0].Hidden? ==> pieces[0].secret != [] && SecretOf(Original(pieces), |pieces[0].secret|, SecretWords()))
      && (pieces[0].Kept? ==> !Spelled(Original(pieces), SecretWords()))
      && HidesSecrets(pieces[1..])
  }

  lemma {:induction false} PiecesSubstituted(pieces: seq<Piece>)
    requires HidesSecrets(pieces)
    ensures Substitute(Original(pieces), SecretLength, REDACTED) == Shown(pieces)
  {
    hide SecretLength, SecretOf, Spelled, SecretWords;
    if pieces != [] {
      PiecesSubstituted(pieces[1..]);
      var s, rest := Original(pieces), Original(pieces[1..]);
      if pieces[0].Hidden? {
        var n := |pieces[0].secret|;
        SecretLengthExact(s, n);
        assert s[n..] == rest;
      } else {
        SecretMatchSpelled(s);
        assert s[1..] == rest;
      }
    }
  }

  /** Every text can be read in this way. */
  lemma {:induction false} TextInPieces(s: string) returns (pieces: seq<Piece>)
    ensures Original(pieces) == s && HidesSecrets(pieces)
    decreases |s|
  {
    hide SecretOf, Spelled, SecretWords, MatchLength;
    if s == [] {
      pieces := [];
    } else if SecretLength(s) > 0 {
      var n := SecretLength(s);
      SecretFits(s);
      var rest := TextInPieces(s[n..]);
      pieces := [Hidden(s[..n])] + rest;
      assert s == s[..n] + s[n..];
      SecretLengthExact(s, n);
    } else {
      var rest := TextInPieces(s[1..]);
      pieces := [Kept(s[0])] + rest;
      assert s == [s[0]] + s[1..];
      SecretMatchSpelled(s);
    }
  }

  lemma SecretFits(s: string)
    ensures SecretLength(s) <= |s|
  {
  }

  /** Redaction hides exactly the whole secrets of a text, read from left to right, keeps every other
      character in place, and cuts the result at 30000. */
  lemma RedactExactly(pieces: seq<Piece>)
    requires HidesSecrets(pieces)
    ensures Redact(Original(pieces)) == (if |Shown(pieces)| <= 30000 then Shown(pieces) else Shown(pieces)[..30000])
  {
    hide SecretOf, Spelled, SecretWords, MatchLength, Shown, Original;
    PiecesSubstituted(pieces);
  }

  /** The words and character classes of the pattern. */
  lemma PatternClasses(w: string, c: char)
    ensures w in SecretWords() <==>
      w == "token" || w == "password" || w == "secret" || w == "apikey" || w == "api_key" || w == "api-key"
    ensures IsSeparator(c) <==> c in ":="
    ensures IsValueChar(c) <==> c !in ",;" && !IsSpace(c)
    ensures c < '\U{0080}' ==> (IsSpace(c) <==> c in "\t\n\r " || c in {'\U{000B}', '\U{000C}', '\U{001C}', '\U{001D}', '\U{001E}', '\U{001F}'})
    ensures c >= '\U{0080}' ==> (IsSpace(c) <==> '\U{2000}' <= c <= '\U{200A}' || c in {'\U{0085}', '\U{00A0}', '\U{1680}',
      '\U{2028}', '\U{2029}', '\U{202F}', '\U{205F}', '\U{3000}'})
  {
  }

  /** A character reads as a letter of a word in lower case, in upper case, or as one of the characters
      that fold to it. */
  ghost predicate ReadsAs(c: char, letter: char) {
    || c == letter || ('a' <= letter <= 'z' && c == letter - ('a' - 'A'))
    || (letter == 'k' && c == '\U{212A}') || (letter == 's' && c == '\U{017F}')
    || (letter == 'i' && (c == '\U{0130}' || c == '\U{0131}'))
  }

  /** A word stands at the head of a text in any mixture of cases. */
  lemma StartsWithExactly(s: string, w: string)
    requires w in SecretWords()
    ensures StartsWith(s, w) <==> |w| <= |s| && forall i :: 0 <= i < |w| ==> ReadsAs(s[i], w[i])
  {
    LettersOf(w);
    forall c: char, i | 0 <= i < |w| ensures Fold(c) == w[i] <==> ReadsAs(c, w[i]) {
    }
  }

  lemma LettersOf(w: string)
    requires w in SecretWords()
    ensures forall i :: 0 <= i < |w| ==> 'a' <= w[i] <= 'z' || w[i] == '_' || w[i] == '-'
  {
  }

  // ---------------------------------------------------------------- nested values

  /** `key.lower()` on the characters of the sensitive keys. */
  function LowerChar(c: char): char {
    if 'A' <= c <= 'Z' then c + ('a' - 'A') else if c == '\U{212A}' then 'k' else c
  }

  predicate Sensitive(key: string) {
    Map(key, LowerChar) in SensitiveKeys()
  }

  /** The same text up to the case of its letters. */
  ghost predicate SameLetters(key: string, word: string) {
    |key| == |word| && forall i :: 0 <= i < |key| ==>
      key[i] == word[i] || ('a' <= word[i] <= 'z' && key[i] == word[i] - ('a' - 'A')) || (word[i] == 'k' && key[i] == '\U{212A}')
  }

  /** The keys whose values are omitted, in upper or lower case. */
  lemma SensitiveExactly(key: string)
    ensures Sensitive(key) <==>
      || SameLetters(key, "api_key") || SameLetters(key, "token") || SameLetters(key, "password")
      || SameLetters(key, "secret") || SameLetters(key, "raw_prompt") || SameLetters(key, "raw_content")
  {
    var words := ["api_key", "token", "password", "secret", "raw_prompt", "raw_content"];
    assert SensitiveKeys() == set w | w in words;
    forall w | w in words ensures Map(key, LowerChar) == w <==> SameLetters(key, w) {
      LowerIs(key, w);
    }
  }

  lemma LowerIs(key: string, word: string)
    requires forall i :: 0 <= i < |word| ==> !('A' <= word[i] <= 'Z') && word[i] != '\U{212A}'
    ensures Map(key, LowerChar) == word <==> SameLetters(key, word)
  {
    var low := Map(key, LowerChar);
    if SameLetters(key, word) {
      assert forall i :: 0 <= i < |key| ==> low[i] == word[i];
    }
    if low == word {
      assert forall i :: 0 <= i < |key| ==> LowerChar(key[i]) == word[i];
    }
  }

  function Sanitize(v: Value, key: string := ""): Value
    decreases v
  {
    if Sensitive(key) then Text(OMITTED)
    else
      match v
      case Text(s) => Text(Redact(s))
      case Array(items) => Array(seq(|items|, i requires 0 <= i < |items| => Sanitize(items[i])))
      case Object(es) =>
        Object(seq(|es|, i requires 0 <= i < |es| => Entry(es[i].key, Sanitize(es[i].value, es[i].key))))
      case _ => v
  }

  /** Nothing is left to hide in v, stored under the given key. */
  ghost predicate Clean(v: Value, key: string := "")
    decreases v
  {
    if Sensitive(key) then v == Text(OMITTED)
    else
      match v
      case Text(s) => |s| <= MAX_TEXT && !HoldsSecret(s)
      case Array(items) => forall i :: 0 <= i < |items| ==> Clean(items[i])
      case Object(es) => forall i :: 0 <= i < |es| ==> Clean(es[i].value, es[i].key)
      case _ => true
  }

  /** w has the structure of v: list lengths, dictionary keys and order, every scalar that is not a
      string, and the redacted text of every string. Below a sensitive key only the marker remains. */
  ghost predicate SameShape(v: Value, w: Value, key: string := "")
    decreases v
  {
    if Sensitive(key) then w == Text(OMITTED)
    else
      match v
      case Text(s) => w == Text(Redact(s))
      case Array(items) =>
        w.Array? && |w.items| == |items|
        && forall i :: 0 <= i < |items| ==> SameShape(items[i], w.items[i])
      case Object(es) =>
        w.Object? && |w.entries| == |es|
        && forall i :: 0 <= i < |es| ==>
          w.entries[i].key == es[i].key && SameShape(es[i].value, w.entries[i].value, es[i].key)
      case _ => w == v
  }

  lemma {:induction false} SanitizeCleans(v: Value, key: string)
    ensures Clean(Sanitize(v, key), key)
    ensures SameShape(v, Sanitize(v, key), key)
    decreases v
  {
    if !Sensitive(key) {
      match v
      case Text(s) => RedactRemovesSecrets(s);
      case Array(items) =>
        forall i | 0 <= i < |items| {
          SanitizeCleans(items[i], "");
        }
      case Object(es) =>
        forall i | 0 <= i < |es| {
          SanitizeCleans(es[i].value, es[i].key);
        }
      case _ =>
    }
  }

  /** The values that the store writes unchanged are exactly the clean ones. */
  lemma {:induction false} SanitizeFixed(v: Value, key: string)
    ensures Sanitize(v, key) == v <==> Clean(v, key)
    decreases v
  {
    SanitizeCleans(v, key);
    if Clean(v, key) && !Sensitive(key) {
      match v
      case Text(s) => RedactFixed(s);
      case Array(items) =>
        forall i | 0 <= i < |items| ensures Sanitize(items[i]) == items[i] {
          SanitizeFixed(items[i], "");
        }
      case Object(es) =>
        forall i | 0 <= i < |es| ensures Sanitize(es[i].value, es[i].key) == es[i].value {
          SanitizeFixed(es[i].value, es[i].key);
        }
      case _ =>
    }
  }

  /** A value under a sensitive key is replaced whatever it is. */
  lemma SanitizeOmits(v: Value, key: string)
    requires Sensitive(key)
    ensures Sanitize(v, key) == Text("[omitted_by_external_collaboration_store]")
  {
  }

  /** Storing a stored value again changes nothing. */
  lemma SanitizeIdempotent(v: Value, key: string)
    ensures Sanitize(Sanitize(v, key), key) == Sanitize(v, key)
  {
    SanitizeCleans(v, key);
    SanitizeFixed(Sanitize(v, key), key);
  }
}
