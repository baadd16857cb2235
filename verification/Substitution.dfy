/** Leftmost substitution of a pattern by a fixed marker, for any matcher: `matchLength(s)` is the
    length of the match at the head of s, and 0 when there is none. */
module Substitution {

  /** `pattern.sub(marker, s)`: matches are taken from left to right and never overlap. */
  function Substitute(s: string, matchLength: string -> nat, marker: string): string
    decreases |s|
  {
    if s == [] then []
    else
      var n := matchLength(s);
      if 0 < n <= |s| then marker + Substitute(s[n..], matchLength, marker)
      else [s[0]] + Substitute(s[1..], matchLength, marker)
  }

  ghost predicate Bounded(matchLength: string -> nat) {
    forall s :: matchLength(s) <= |s|
  }

  /** No match starts inside the marker, whatever follows it. */
  ghost predicate Inert(matchLength: string -> nat, marker: string) {
    forall rest: string, i: nat :: i < |marker| ==> matchLength((marker + rest)[i..]) == 0
  }

  /** t is s up to position p; from there t shows the marker where s has a match. */
  ghost predicate Rewritten(s: string, t: string, p: nat, matchLength: string -> nat, marker: string) {
    && p <= |s| && p <= |t| && s[..p] == t[..p]
    && (p == |s| ==> |t| == p)
    && (p < |s| ==> matchLength(s[p..]) > 0 && marker <= t[p..])
  }

  /** A match at the head of a rewritten text was a match of the original text. */
  ghost predicate Reflects(matchLength: string -> nat, marker: string) {
    forall s, t, p: nat :: 0 < p && Rewritten(s, t, p, matchLength, marker) && matchLength(t) > 0
      ==> matchLength(s) > 0
  }

  ghost predicate NoMatch(s: string, matchLength: string -> nat) {
    forall i: nat :: i <= |s| ==> matchLength(s[i..]) == 0
  }

  lemma {:induction false} SubstituteRewrites(s: string, matchLength: string -> nat, marker: string) returns (p: nat)
    requires Bounded(matchLength)
    ensures Rewritten(s, Substitute(s, matchLength, marker), p, matchLength, marker)
    ensures s != [] && matchLength(s) == 0 ==> p > 0
    decreases |s|
  {
    var t := Substitute(s, matchLength, marker);
    if s == [] || matchLength(s) > 0 {
      p := 0;
      assert s[0..] == s && t[0..] == t;
    } else {
      var q := SubstituteRewrites(s[1..], matchLength, marker);
      p := q + 1;
      var t' := Substitute(s[1..], matchLength, marker);
      assert s[..p] == [s[0]] + s[1..][..q];
      assert t[..p] == [s[0]] + t'[..q];
      assert s[p..] == s[1..][q..] && t[p..] == t'[q..];
    }
  }

  /** Substitution leaves no match at any position. */
  lemma {:induction false} SubstituteLeavesNoMatch(s: string, i: nat, matchLength: string -> nat, marker: string)
    requires Bounded(matchLength) && Inert(matchLength, marker) && Reflects(matchLength, marker)
    requires matchLength([]) == 0
    requires i <= |Substitute(s, matchLength, marker)|
    ensures matchLength(Substitute(s, matchLength, marker)[i..]) == 0
    decreases |s|
  {
    var t := Substitute(s, matchLength, marker);
    if s == [] {
      assert t[i..] == [];
    } else if matchLength(s) > 0 {
      var rest := Substitute(s[matchLength(s)..], matchLength, marker);
      assert t == marker + rest;
      if i >= |marker| {
        SubstituteLeavesNoMatch(s[matchLength(s)..], i - |marker|, matchLength, marker);
        assert t[i..] == rest[i - |marker|..];
      }
    } else if i > 0 {
      SubstituteLeavesNoMatch(s[1..], i - 1, matchLength, marker);
      assert t[i..] == Substitute(s[1..], matchLength, marker)[i - 1..];
    } else {
      var p := SubstituteRewrites(s, matchLength, marker);
      assert t[0..] == t;
    }
  }

  /** A text without matches is left alone. */
  lemma {:induction false} SubstituteKeepsClean(s: string, matchLength: string -> nat, marker: string)
    requires NoMatch(s, matchLength)
    ensures Substitute(s, matchLength, marker) == s
  {
    if s != [] {
      assert s[0..] == s;
      forall i: nat | i <= |s[1..]| ensures matchLength(s[1..][i..]) == 0 {
        assert s[1..][i..] == s[i + 1..];
      }
      SubstituteKeepsClean(s[1..], matchLength, marker);
    }
  }
}
