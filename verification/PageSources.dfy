/** From a result page to the sources of a search: scanning, relevance and the cut to the limit. */
module PageSources {
  import opened Sequences
  import opened Scanners
  import opened SearchRanking

  /** A fetched page with the parser chosen for its backend and the backend's name. */
  datatype Page = Page(bing: bool, name: string, events: seq<HtmlEvent>)

  const NO_TEXT := "Resultado encontrado por busca publica."

  /** `max(max_results, max_results * 4)` */
  function ParseLimit(max: int): int {
    if max >= 4 * max then max else 4 * max
  }

  function AsSource(name: string): Item -> Source {
    (x: Item) => Source(x.title, x.url, if x.snippet != "" then x.snippet else NO_TEXT, name)
  }

  /** The results of the scanner that reads the page. */
  function Found(page: Page, limit: int, lib: Library): seq<Item> {
    if page.bing then BingRun(page.events, limit, lib).results else DuckRun(page.events, limit, lib).results
  }

  function Candidates(page: Page, lib: Library, max: int): seq<Source> {
    Map(Prefix(Found(page, ParseLimit(max), lib), ParseLimit(max)), AsSource(page.name))
  }

  function Parsed(page: Page, lib: Library, m: Matcher, max: int): seq<Source> {
    Prefix(Relevant(m, Candidates(page, lib, max)), max)
  }

  /** `_parse_browser_sources` */
  method ParseSources(page: Page, lib: Library, m: Matcher, max: int) returns (sources: seq<Source>)
    ensures sources == Parsed(page, lib, m, max)
  {
    hide Relevant, Prefix, DuckRun, BingRun;
    var limit := ParseLimit(max);
    var found;
    if page.bing {
      var scanner := new BingScanner(limit, lib);
      scanner.Feed(page.events);
      found := scanner.results;
    } else {
      var scanner := new DuckScanner(limit, lib);
      scanner.Feed(page.events);
      found := scanner.results;
    }
    sources := Prefix(Relevant(m, Map(Prefix(found, limit), AsSource(page.name))), max);
  }

  /** All recordable links or items of the page, without their snippets. */
  function PageLinks(page: Page, lib: Library): seq<Item> {
    if page.bing then Map(Filter(Items(page.events, lib), ValidLink(lib)), Bare)
    else Filter(Links(page.events, lib), ValidLink(lib))
  }

  /** The first results of the page as its text gives them, with their snippets. */
  function PageResults(page: Page, limit: int, lib: Library): seq<Item> {
    if page.bing then WantedItems(page.events, limit, lib) else WantedResults(page.events, limit, lib)
  }

  /** Whichever scanner reads it, the page's first recordable results are found with title, URL and
      snippet, up to the limit; titles and URLs do not depend on the limit. */
  lemma FoundArePageResults(page: Page, limit: int, lib: Library)
    ensures Found(page, limit, lib) == PageResults(page, limit, lib)
    ensures Map(Found(page, limit, lib), Bare) == UpTo(PageLinks(page, lib), limit)
  {
    hide BingRun, DuckRun, Items, Links, Filter, Reading, WantedResults, SnippetsTracked;
    if page.bing {
      BingRecordsItems(page.events, limit, lib);
    } else {
      DuckRecordsLinks(page.events, limit, lib);
      DuckRecordsResults(page.events, limit, lib);
    }
  }

  /** The candidates are the first recordable results of the page, four times as many as asked for,
      with title, URL and snippet as the page gives them. */
  lemma CandidatesAreFirstLinks(page: Page, lib: Library, max: int)
    ensures Candidates(page, lib, max) == Map(PageResults(page, 4 * max, lib), AsSource(page.name))
    ensures |Candidates(page, lib, max)| == |UpTo(PageLinks(page, lib), 4 * max)|
    ensures forall i :: 0 <= i < |Candidates(page, lib, max)| ==>
      var c, link := Candidates(page, lib, max)[i], PageLinks(page, lib)[i];
      c.title == link.title && c.url == link.url && c.sourceName == page.name && Recordable(c.title, c.url, lib)
  {
    hide Found, PageLinks, PageResults, Recordable;
    var found := Found(page, ParseLimit(max), lib);
    FoundArePageResults(page, ParseLimit(max), lib);
    FoundArePageResults(page, 4 * max, lib);
    assert Prefix(found, ParseLimit(max)) == found;
    forall i | 0 <= i < |found|
      ensures found[i].title == PageLinks(page, lib)[i].title && found[i].url == PageLinks(page, lib)[i].url
    {
      assert Map(found, Bare)[i] == Bare(found[i]);
    }
    PageLinksRecordable(page, lib);
  }

  lemma PageLinksRecordable(page: Page, lib: Library)
    ensures forall i :: 0 <= i < |PageLinks(page, lib)| ==>
      Recordable(PageLinks(page, lib)[i].title, PageLinks(page, lib)[i].url, lib)
  {
    hide Items, Links, Filter, Recordable;
    var all := if page.bing then Items(page.events, lib) else Links(page.events, lib);
    FilterMembers(all, ValidLink(lib));
    var kept := Filter(all, ValidLink(lib));
    forall i | 0 <= i < |kept| ensures Recordable(kept[i].title, kept[i].url, lib) {
      assert kept[i] in kept;
    }
  }

  /** The source shows the i-th result of the page, with a standard text for a missing snippet, and has
      the title and URL of its i-th recordable link. */
  ghost predicate StandsFor(s: Source, page: Page, i: int, max: int, lib: Library) {
    && 0 <= i < |PageResults(page, 4 * max, lib)| && i < |PageLinks(page, lib)|
    && s.title == PageLinks(page, lib)[i].title && s.url == PageLinks(page, lib)[i].url && s.sourceName == page.name
    && var x := PageResults(page, 4 * max, lib)[i];
       && x.title == s.title && x.url == s.url
       && (x.snippet != "" ==> s.snippet == x.snippet)
       && (x.snippet == "" ==> s.snippet == "Resultado encontrado por busca publica.")
  }

  /** Every source returned stands for one of the first 4 * max recordable links of the page and
      has enough overlap with the query; there are at most max of them, and none for max < 1. */
  lemma ParsedComeFromPage(page: Page, lib: Library, m: Matcher, max: int, s: Source)
    requires s in Parsed(page, lib, m, max)
    ensures 1 <= |Parsed(page, lib, m, max)| <= max
    ensures exists i :: 0 <= i < 4 * max && StandsFor(s, page, i, max, lib)
    ensures s.sourceName == page.name && Recordable(s.title, s.url, lib)
    ensures InformativeTerms(m) != {} ==> Matches(m, s)
  {
    hide Relevant, Candidates, PageLinks, PageResults, Matches, InformativeTerms, Recordable;
    var candidates := Candidates(page, lib, max);
    CandidatesAreFirstLinks(page, lib, max);
    RelevantNoLonger(m, candidates);
    assert s in Relevant(m, candidates);
    RelevantAmong(m, candidates, s);
    var i :| 0 <= i < |candidates| && candidates[i] == s;
    assert StandsFor(s, page, i, max, lib);
  }

  /** A candidate with enough words of the query is returned, or as many sources as asked for are
      returned and none of them holds fewer words. */
  lemma ParsedKeepBest(page: Page, lib: Library, m: Matcher, max: int, c: Source)
    requires InformativeTerms(m) != {} && max >= 1
    requires c in Candidates(page, lib, max) && Matches(m, c)
    ensures var r := Parsed(page, lib, m, max);
      c in r || (|r| == max && forall i :: 0 <= i < |r| ==> |WordsIn(m, r[i])| >= |WordsIn(m, c)|)
  {
    hide Relevant, Candidates, Matches, InformativeTerms, WordsIn;
    var ranked := Relevant(m, Candidates(page, lib, max));
    KeptExactly(m, Candidates(page, lib, max), c);
    var j :| 0 <= j < |ranked| && ranked[j] == c;
    if j < max {
      assert Prefix(ranked, max)[j] == c;
    } else {
      forall i | 0 <= i < max ensures |WordsIn(m, ranked[i])| >= |WordsIn(m, c)| {
        if |WordsIn(m, c)| > |WordsIn(m, ranked[i])| {
          MoreWordsFirst(m, Candidates(page, lib, max), j, i);
        }
      }
    }
  }
}
