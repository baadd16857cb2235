/** Ranking and filtering of search results by the terms of the query. */
module SearchRanking {
  import opened Sequences

  datatype Source = Source(title: string, url: string, snippet: string, sourceName: string)

  /** The folded words of a query, the test that keeps its informative ones, the folded text of a
      source and the configured minimal overlap. */
  datatype Matcher = Matcher(
    tokens: seq<string>, informative: string -> bool, haystack: Source -> string, minOverlap: int)

  function Terms(m: Matcher): set<string> {
    set t | t in m.tokens
  }

  function InformativeTerms(m: Matcher): set<string> {
    set t | t in m.tokens && m.informative(t)
  }

  function Matched(m: Matcher, s: Source, terms: set<string>): set<string> {
    set t | t in terms && Contains(m.haystack(s), t)
  }

  function Score(m: Matcher, s: Source): nat {
    |Matched(m, s, Terms(m))|
  }

  function Overlap(m: Matcher, s: Source): nat {
    |Matched(m, s, InformativeTerms(m))|
  }

  function ByScore(m: Matcher): (Source, Source) -> bool {
    (a: Source, b: Source) => Score(m, a) >= Score(m, b)
  }

  /** `_rank_sources` */
  function Rank(m: Matcher, sources: seq<Source>): seq<Source> {
    if Terms(m) == {} then sources else StableSort(sources, ByScore(m))
  }

  /** `min(len(terms), max(1, int(configured or 2)))` */
  function Minimum(m: Matcher): int {
    var configured := if m.minOverlap == 0 then 2 else m.minOverlap;
    var wanted := if configured < 1 then 1 else configured;
    if |InformativeTerms(m)| < wanted then |InformativeTerms(m)| else wanted
  }

  function Enough(m: Matcher): Source -> bool {
    (s: Source) => Overlap(m, s) >= Minimum(m)
  }

  /** `_relevant_sources` */
  function Relevant(m: Matcher, sources: seq<Source>): seq<Source> {
    if InformativeTerms(m) == {} then sources else Filter(Rank(m, sources), Enough(m))
  }

  lemma InformativeExactly(m: Matcher, t: string)
    ensures t in InformativeTerms(m) <==> t in m.tokens && m.informative(t)
  {
  }

  lemma ByScorePreorder(m: Matcher)
    ensures TotalPreorder(ByScore(m))
  {
    hide Score;
  }

  /** With informative terms, ranking then filtering gives the sources with enough overlap in
      stable order of descending score. */
  lemma RelevantIsRankedFilter(m: Matcher, sources: seq<Source>)
    requires InformativeTerms(m) != {}
    ensures Relevant(m, sources) == StableSort(Filter(sources, Enough(m)), ByScore(m))
    ensures Ordered(Relevant(m, sources), ByScore(m))
    ensures multiset(Relevant(m, sources)) == multiset(Filter(sources, Enough(m)))
    ensures |Relevant(m, sources)| <= |sources|
  {
    hide StableSort, Filter, Enough, ByScore;
    assert Terms(m) != {} by {
      var t :| t in InformativeTerms(m);
      assert t in Terms(m);
    }
    ByScorePreorder(m);
    SortFilterCommute(sources, ByScore(m), Enough(m));
    SortOrdered(Filter(sources, Enough(m)), ByScore(m));
    SortPermutes(Filter(sources, Enough(m)), ByScore(m));
  }

  /** The words of the query that stand in the source. */
  ghost function WordsIn(m: Matcher, s: Source): set<string> {
    set t | t in m.tokens && Contains(m.haystack(s), t)
  }

  /** The informative words of the query that stand in the source. */
  ghost function InformativeIn(m: Matcher, s: Source): set<string> {
    set t | t in m.tokens && m.informative(t) && Contains(m.haystack(s), t)
  }

  /** Every informative word stands in the source, or at least as many as are asked for: two unless
      configured otherwise, and never less than one. */
  ghost predicate Matches(m: Matcher, s: Source) {
    || (forall t :: t in m.tokens && m.informative(t) ==> Contains(m.haystack(s), t))
    || (m.minOverlap == 0 && |InformativeIn(m, s)| >= 2)
    || (m.minOverlap != 0 && |InformativeIn(m, s)| >= 1 && |InformativeIn(m, s)| >= m.minOverlap)
  }

  lemma EnoughMatches(m: Matcher, s: Source)
    requires InformativeTerms(m) != {}
    ensures Overlap(m, s) >= Minimum(m) <==> Matches(m, s)
  {
    var found, all := Matched(m, s, InformativeTerms(m)), InformativeTerms(m);
    assert found == InformativeIn(m, s);
    SubsetSize(found, all);
    if forall t :: t in m.tokens && m.informative(t) ==> Contains(m.haystack(s), t) {
      assert found == all;
    } else {
      var t :| t in m.tokens && m.informative(t) && !Contains(m.haystack(s), t);
      SubsetSize(found, all - {t});
    }
  }

  lemma ScoreCountsWords(m: Matcher, s: Source)
    ensures Score(m, s) == |WordsIn(m, s)|
  {
    assert Matched(m, s, Terms(m)) == WordsIn(m, s);
  }

  /** A source is kept exactly when enough informative words of the query stand in it. */
  lemma KeptExactly(m: Matcher, sources: seq<Source>, s: Source)
    requires InformativeTerms(m) != {}
    ensures s in Relevant(m, sources) <==> s in sources && Matches(m, s)
  {
    hide StableSort, Filter, Relevant, Overlap, Minimum, Matches;
    RelevantIsRankedFilter(m, sources);
    EnoughMatches(m, s);
    FilterMembers(sources, Enough(m));
    assert s in Relevant(m, sources) <==> s in multiset(Relevant(m, sources));
    assert s in Filter(sources, Enough(m)) <==> s in multiset(Filter(sources, Enough(m)));
  }

  /** Without informative words nothing is filtered or ranked. */
  lemma UninformativeKeepsAll(m: Matcher, sources: seq<Source>)
    requires InformativeTerms(m) == {}
    ensures Relevant(m, sources) == sources
  {
  }

  /** Of two kept sources the one that holds more words of the query stands first. */
  lemma MoreWordsFirst(m: Matcher, sources: seq<Source>, i: nat, j: nat)
    requires InformativeTerms(m) != {}
    requires i < |Relevant(m, sources)| && j < |Relevant(m, sources)|
    requires |WordsIn(m, Relevant(m, sources)[i])| > |WordsIn(m, Relevant(m, sources)[j])|
    ensures i < j
  {
    hide Relevant, Score, WordsIn;
    RelevantIsRankedFilter(m, sources);
    var ranked := Relevant(m, sources);
    ScoreCountsWords(m, ranked[i]);
    ScoreCountsWords(m, ranked[j]);
    assert forall p, q :: 0 <= p < q < |ranked| ==> ByScore(m)(ranked[p], ranked[q]);
  }

  /** After any cut, no source is returned while a kept one with more words of the query is not. */
  lemma CutKeepsBest(m: Matcher, sources: seq<Source>, n: int, a: Source, b: Source)
    requires InformativeTerms(m) != {}
    requires a in Relevant(m, sources) && b in Prefix(Relevant(m, sources), n) && |WordsIn(m, a)| > |WordsIn(m, b)|
    ensures a in Prefix(Relevant(m, sources), n)
  {
    hide Relevant, WordsIn;
    var ranked, cut := Relevant(m, sources), Prefix(Relevant(m, sources), n);
    var i :| 0 <= i < |ranked| && ranked[i] == a;
    var j :| 0 <= j < |cut| && cut[j] == b;
    MoreWordsFirst(m, sources, i, j);
    assert cut[i] == a;
  }

  ghost function HoldingWords(m: Matcher, count: nat): Source -> bool {
    (s: Source) => |WordsIn(m, s)| == count
  }

  ghost function Matching(m: Matcher): Source -> bool {
    (s: Source) => Matches(m, s)
  }

  lemma SameTests(m: Matcher, sources: seq<Source>)
    requires InformativeTerms(m) != {}
    ensures Filter(sources, Enough(m)) == Filter(sources, Matching(m))
  {
    hide Matches, Overlap, Minimum, Filter, InformativeTerms;
    forall i | 0 <= i < |sources| ensures Enough(m)(sources[i]) == Matching(m)(sources[i]) {
      EnoughMatches(m, sources[i]);
    }
    FilterAgree(sources, Enough(m), Matching(m));
  }

  /** Kept sources that hold the same number of words of the query keep their page order. */
  lemma TiesKeepOrder(m: Matcher, sources: seq<Source>, count: nat)
    requires InformativeTerms(m) != {}
    ensures Filter(Relevant(m, sources), HoldingWords(m, count))
         == Filter(Filter(sources, Matching(m)), HoldingWords(m, count))
  {
    hide StableSort, Filter, Relevant, Score, WordsIn, Matches, InformativeTerms;
    RelevantIsRankedFilter(m, sources);
    ByScorePreorder(m);
    SameTests(m, sources);
    forall s: Source ensures Score(m, s) == |WordsIn(m, s)| {
      ScoreCountsWords(m, s);
    }
    SortStable(Filter(sources, Enough(m)), ByScore(m), HoldingWords(m, count));
  }

  /** A source that contains every informative term is never filtered out. */
  lemma FullMatchKept(m: Matcher, sources: seq<Source>, s: Source)
    requires s in sources && forall t :: t in InformativeTerms(m) ==> Contains(m.haystack(s), t)
    ensures s in Relevant(m, sources)
  {
    if InformativeTerms(m) != {} {
      hide Relevant;
      KeptExactly(m, sources, s);
    }
  }

  lemma RelevantAmong(m: Matcher, sources: seq<Source>, s: Source)
    requires s in Relevant(m, sources)
    ensures s in sources && (InformativeTerms(m) != {} ==> Matches(m, s))
  {
    if InformativeTerms(m) != {} {
      hide Relevant, Matches;
      KeptExactly(m, sources, s);
    }
  }

  lemma RelevantNoLonger(m: Matcher, sources: seq<Source>)
    ensures |Relevant(m, sources)| <= |sources|
  {
    if InformativeTerms(m) != {} {
      RelevantIsRankedFilter(m, sources);
    }
  }
}
