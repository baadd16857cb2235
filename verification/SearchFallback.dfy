/** The search over several backends, with the encyclopedia as the last resort. */
module SearchFallback {
  import opened JsonValues
  import opened Sequences
  import opened Scanners
  import opened SearchRanking
  import opened PageSources

  datatype Fetch = NoEndpoint | TimedOut | Failed(message: string) | Html(events: seq<HtmlEvent>)

  /** A configured backend with its parser and the outcome of fetching its page. */
  datatype Backend = Backend(id: string, bing: bool, fetch: Fetch)

  /** The lists of an opensearch answer. */
  datatype Opensearch = Opensearch(titles: seq<string>, descriptions: seq<string>, urls: seq<string>)

  datatype SearchStatus = Ready | Timeout | SearchFailed

  datatype SearchResult = SearchResult(
    status: SearchStatus, results: seq<Source>, warnings: seq<string>, errors: seq<string>, reason: string, count: nat)

  const NO_SNIPPET := "Fonte enciclopedica publica encontrada para a consulta."

  function PageOf(b: Backend): Page
    requires b.fetch.Html?
  {
    Page(b.bing, b.id, b.fetch.events)
  }

  /** The sources a backend yields. */
  function Yield(b: Backend, lib: Library, m: Matcher, max: int): seq<Source> {
    if b.fetch.Html? then Parsed(PageOf(b), lib, m, max) else []
  }

  /** The outcome record of a backend that yielded nothing. */
  function Record(b: Backend): string {
    b.id + match b.fetch
           case NoEndpoint => ":missing_endpoint"
           case TimedOut => ":timeout"
           case Failed(_) => ":failed"
           case Html(_) => ":no_sources"
  }

  /** The only records that end in ":timeout" are those of backends that timed out. */
  lemma TimeoutRecord(b: Backend)
    ensures EndsWith(Record(b), ":timeout") <==> b.fetch.TimedOut?
  {
    var r := Record(b);
    match b.fetch
    case NoEndpoint =>
      assert r[|r| - 8] == 'e';
      assert |r| >= 8 && r[|r| - 8..][0] == 'e';
    case TimedOut =>
      assert r[|r| - 8..] == ":timeout";
    case Failed(_) =>
      assert r[|r| - 7] == ':';
      if |r| >= 8 {
        assert r[|r| - 8..][1] == ':';
      }
    case Html(_) =>
      assert r[|r| - 8] == '_';
      assert r[|r| - 8..][0] == '_';
  }

  /** The sources of the first n titles. */
  function Gather(o: Opensearch, n: nat, isPublic: string -> bool): (r: seq<Source>)
    requires n <= |o.titles|
    ensures |r| <= n
    ensures forall s :: s in r ==> isPublic(s.url)
  {
    if n == 0 then []
    else
      var i := n - 1;
      Gather(o, i, isPublic)
      + if isPublic(if i < |o.urls| then o.urls[i] else "") then
          [Source(o.titles[i], if i < |o.urls| then o.urls[i] else "",
                  if i < |o.descriptions| && o.descriptions[i] != "" then o.descriptions[i] else NO_SNIPPET,
                  "wikipedia_opensearch")]
        else []
  }

  /** `_wikipedia_fallback_sources`; None when disabled or unreadable. */
  method EncyclopediaSources(answer: Option<Opensearch>, m: Matcher, max: int, isPublic: string -> bool)
    returns (sources: seq<Source>)
    ensures sources == Encyclopedia(answer, m, max, isPublic)
  {
    if answer.None? {
      return [];
    }
    hide Relevant;
    var o := answer.value;
    var titles := Prefix(o.titles, max);
    var gathered := [];
    for i := 0 to |titles|
      invariant gathered == Gather(o, i, isPublic)
    {
      var url := if i < |o.urls| then o.urls[i] else "";
      if isPublic(url) {
        var snippet := if i < |o.descriptions| && o.descriptions[i] != "" then o.descriptions[i] else NO_SNIPPET;
        gathered := gathered + [Source(titles[i], url, snippet, "wikipedia_opensearch")];
      }
    }
    sources := Relevant(m, gathered);
  }

  function Encyclopedia(answer: Option<Opensearch>, m: Matcher, max: int, isPublic: string -> bool): seq<Source> {
    if answer.None? then []
    else Relevant(m, Gather(answer.value, |Prefix(answer.value.titles, max)|, isPublic))
  }

  /** Index of the first backend that yields sources; the number of backends when none does. */
  function Winner(backends: seq<Backend>, lib: Library, m: Matcher, max: int): (k: nat)
    ensures k <= |backends|
  {
    if backends == [] || Yield(backends[0], lib, m, max) != [] then 0 else 1 + Winner(backends[1..], lib, m, max)
  }

  lemma {:induction false} WinnerIsFirst(backends: seq<Backend>, lib: Library, m: Matcher, max: int)
    ensures var k := Winner(backends, lib, m, max);
      && (forall i :: 0 <= i < k ==> Yield(backends[i], lib, m, max) == [])
      && (k < |backends| ==> Yield(backends[k], lib, m, max) != [])
  {
    hide Yield;
    if backends != [] {
      WinnerIsFirst(backends[1..], lib, m, max);
    }
  }

  /** The errors of the backends that failed, in order. */
  function Errors(backends: seq<Backend>): (r: seq<string>)
    ensures r == [] <==> forall i :: 0 <= i < |backends| ==> !backends[i].fetch.Failed?
  {
    if backends == [] then []
    else
      var last := backends[|backends| - 1];
      Errors(backends[..|backends| - 1]) + if last.fetch.Failed? then [last.id + ":" + last.fetch.message] else []
  }

  /** The loop of `_browser_search`: backends are tried in order until one yields sources, and each
      one tried in vain leaves exactly one record. */
  method TryBackends(backends: seq<Backend>, lib: Library, m: Matcher, max: int)
    returns (sources: seq<Source>, records: seq<string>, errors: seq<string>)
    ensures var k := Winner(backends, lib, m, max);
      && records == Map(backends[..k], Record)
      && sources == (if k < |backends| then Yield(backends[k], lib, m, max) else [])
      && (k == |backends| ==> errors == Errors(backends))
  {
    hide Errors, Yield, Winner, Parsed;
    WinnerIsFirst(backends, lib, m, max);
    records, errors, sources := [], [], [];
    NoErrorsYet(backends);
    for i := 0 to |backends|
      invariant sources == [] && i <= Winner(backends, lib, m, max)
      invariant records == Map(backends[..i], Record)
      invariant errors == Errors(backends[..i])
    {
      var b := backends[i];
      ErrorsNext(backends, i);
      assert Map(backends[..i + 1], Record) == Map(backends[..i], Record) + [Record(b)];
      YieldOf(b, lib, m, max);
      match b.fetch {
        case NoEndpoint =>
          records := records + [b.id + ":missing_endpoint"];
        case TimedOut =>
          records := records + [b.id + ":timeout"];
        case Failed(message) =>
          records := records + [b.id + ":failed"];
          errors := errors + [b.id + ":" + message];
        case Html(_) =>
          sources := ParseSources(PageOf(b), lib, m, max);
          if sources != [] {
            return;
          }
          records := records + [b.id + ":no_sources"];
      }
    }
    assert backends[..|backends|] == backends;
  }

  /** `_browser_search` */
  method BrowserSearch(backends: seq<Backend>, lib: Library, m: Matcher, max: int, answer: Option<Opensearch>,
                       notes: seq<string>) returns (r: SearchResult)
    ensures var k := Winner(backends, lib, m, max);
      var tried := Map(backends[..k], Record);
      var last := Encyclopedia(answer, m, max, lib.isPublic);
      if k < |backends| then
        r == SearchResult(Ready, Yield(backends[k], lib, m, max), notes + tried, [], "", |Yield(backends[k], lib, m, max)|)
      else if last != [] then
        r == SearchResult(Ready, last, notes + tried + ["wikipedia_fallback_used"], [], "", |last|)
      else if TimeoutOnly(backends) then
        r == SearchResult(Timeout, [], notes + ["web_search_provider_timeout"] + tried, [], "web_search_provider_timeout", 0)
      else
        r == SearchResult(SearchFailed, [], notes + ["web_search_no_sources"] + tried, Errors(backends),
                          if Errors(backends) == [] then "web_search_no_sources" else "web_search_provider_failed", 0)
    ensures r.status == Ready ==> 1 <= r.count == |r.results| && (r.count <= max <==> max >= 1)
    ensures AllPublic(r.results, lib.isPublic)
  {
    hide Record, Yield, Winner, Errors, EndsWith, Encyclopedia;
    ghost var k := Winner(backends, lib, m, max);
    WinnerIsFirst(backends, lib, m, max);
    var sources, records, errors := TryBackends(backends, lib, m, max);
    if sources != [] {
      YieldFits(backends[k], lib, m, max);
      return SearchResult(Ready, sources, notes + records, [], "", |sources|);
    }
    assert backends[..k] == backends;
    var last := EncyclopediaSources(answer, m, max, lib.isPublic);
    if last != [] {
      EncyclopediaFits(answer, m, max, lib.isPublic);
      return SearchResult(Ready, last, notes + records + ["wikipedia_fallback_used"], [], "", |last|);
    }
    var timedOut := exists i :: 0 <= i < |records| && EndsWith(records[i], ":timeout");
    TimeoutRecords(backends);
    ErrorsMean(backends);
    if timedOut && errors == [] {
      r := SearchResult(Timeout, [], notes + ["web_search_provider_timeout"] + records, [], "web_search_provider_timeout", 0);
    } else {
      r := SearchResult(SearchFailed, [], notes + ["web_search_no_sources"] + records, errors,
                        if errors == [] then "web_search_no_sources" else "web_search_provider_failed", 0);
    }
  }

  /** Some backend timed out and none failed. */
  predicate TimeoutOnly(backends: seq<Backend>) {
    && (exists i :: 0 <= i < |backends| && backends[i].fetch.TimedOut?)
    && (forall i :: 0 <= i < |backends| ==> !backends[i].fetch.Failed?)
  }

  lemma TimeoutRecords(backends: seq<Backend>)
    ensures var records := Map(backends, Record);
      (exists i :: 0 <= i < |records| && EndsWith(records[i], ":timeout"))
      <==> (exists i :: 0 <= i < |backends| && backends[i].fetch.TimedOut?)
  {
    hide Record, EndsWith;
    var records := Map(backends, Record);
    forall i | 0 <= i < |backends| ensures EndsWith(records[i], ":timeout") <==> backends[i].fetch.TimedOut? {
      TimeoutRecord(backends[i]);
    }
  }

  lemma NoErrorsYet(backends: seq<Backend>)
    ensures Errors(backends[..0]) == []
  {
  }

  lemma ErrorsNext(backends: seq<Backend>, i: nat)
    requires i < |backends|
    ensures Errors(backends[..i + 1]) == Errors(backends[..i])
      + if backends[i].fetch.Failed? then [backends[i].id + ":" + backends[i].fetch.message] else []
  {
    assert backends[..i + 1][..i] == backends[..i];
  }

  lemma ErrorsMean(backends: seq<Backend>)
    ensures Errors(backends) == [] <==> forall i :: 0 <= i < |backends| ==> !backends[i].fetch.Failed?
  {
  }

  lemma YieldOf(b: Backend, lib: Library, m: Matcher, max: int)
    ensures b.fetch.Html? ==> Yield(b, lib, m, max) == Parsed(PageOf(b), lib, m, max)
    ensures !b.fetch.Html? ==> Yield(b, lib, m, max) == []
  {
    hide Parsed;
  }

  /** A backend never yields more than asked for, and nothing for a limit below one. */
  lemma YieldFits(b: Backend, lib: Library, m: Matcher, max: int)
    requires Yield(b, lib, m, max) != []
    ensures |Yield(b, lib, m, max)| <= max && AllPublic(Yield(b, lib, m, max), lib.isPublic)
  {
    hide Parsed;
    var sources := Yield(b, lib, m, max);
    forall i | 0 <= i < |sources| ensures |sources| <= max && lib.isPublic(sources[i].url) {
      ParsedComeFromPage(PageOf(b), lib, m, max, sources[i]);
    }
    assert lib.isPublic(sources[0].url);
  }

  predicate AllPublic(sources: seq<Source>, isPublic: string -> bool) {
    forall i :: 0 <= i < |sources| ==> isPublic(sources[i].url)
  }

  lemma EncyclopediaFits(answer: Option<Opensearch>, m: Matcher, max: int, isPublic: string -> bool)
    ensures max >= 1 ==> |Encyclopedia(answer, m, max, isPublic)| <= max
    ensures AllPublic(Encyclopedia(answer, m, max, isPublic), isPublic)
  {
    if answer.Some? {
      hide Relevant;
      var gathered := Gather(answer.value, |Prefix(answer.value.titles, max)|, isPublic);
      RelevantNoLonger(m, gathered);
      var sources := Relevant(m, gathered);
      forall i | 0 <= i < |sources| ensures isPublic(sources[i].url) {
        RelevantAmong(m, gathered, sources[i]);
      }
    }
  }

  /** A negative limit lets the encyclopedia return more sources than asked for: Python's slice
      then drops only from the end. */
  lemma NegativeLimitExceeded(m: Matcher, isPublic: string -> bool)
    requires InformativeTerms(m) == {} && isPublic("https://pt.wikipedia.org/wiki/A")
    ensures var url := "https://pt.wikipedia.org/wiki/A";
      |Encyclopedia(Some(Opensearch(["A", "B"], [], [url, url])), m, -1, isPublic)| == 1
  {
    var url := "https://pt.wikipedia.org/wiki/A";
    var o := Opensearch(["A", "B"], [], [url, url]);
    assert |Prefix(o.titles, -1)| == 1;
    assert Gather(o, 0, isPublic) == [];
  }

  /** The errors are exactly the messages of the backends that failed, in order. */
  lemma {:induction false} ErrorsExactly(backends: seq<Backend>)
    ensures Errors(backends) == Map(Filter(backends, (b: Backend) => b.fetch.Failed?), Complaint)
    decreases |backends|
  {
    if backends != [] {
      var n := |backends| - 1;
      var failed := (b: Backend) => b.fetch.Failed?;
      ErrorsExactly(backends[..n]);
      assert backends == backends[..n] + [backends[n]];
      FilterConcat(backends[..n], [backends[n]], failed);
      FilterCons(backends[n], [], failed);
    }
  }

  function Complaint(b: Backend): string {
    if b.fetch.Failed? then b.id + ":" + b.fetch.message else b.id
  }

  /** The source that the i-th title stands for. */
  function SourceAt(o: Opensearch, i: nat): Source
    requires i < |o.titles|
  {
    Source(o.titles[i], if i < |o.urls| then o.urls[i] else "",
           if i >= |o.descriptions| || o.descriptions[i] == "" then "Fonte enciclopedica publica encontrada para a consulta."
           else o.descriptions[i], "wikipedia_opensearch")
  }

  /** The first n titles with their sources. */
  function AllSources(o: Opensearch, n: nat): seq<Source>
    requires n <= |o.titles|
  {
    seq(n, i requires 0 <= i < n => SourceAt(o, i))
  }

  lemma GatherNext(o: Opensearch, i: nat, isPublic: string -> bool)
    requires i < |o.titles|
    ensures Gather(o, i + 1, isPublic)
         == Gather(o, i, isPublic) + if isPublic(SourceAt(o, i).url) then [SourceAt(o, i)] else []
    ensures AllSources(o, i + 1) == AllSources(o, i) + [SourceAt(o, i)]
  {
  }

  ghost function Reachable(isPublic: string -> bool): Source -> bool {
    (s: Source) => isPublic(s.url)
  }

  lemma FilterNext(s: seq<Source>, x: Source, isPublic: string -> bool)
    ensures Filter(s + [x], Reachable(isPublic)) == Filter(s, Reachable(isPublic)) + if isPublic(x.url) then [x] else []
  {
    FilterConcat(s, [x], Reachable(isPublic));
    FilterCons(x, [], Reachable(isPublic));
    assert [x] + [] == [x];
  }

  /** The sources gathered are those of the first titles that have a public URL, in order. */
  lemma {:induction false} GatherExactly(o: Opensearch, n: nat, isPublic: string -> bool)
    requires n <= |o.titles|
    ensures Gather(o, n, isPublic) == Filter(AllSources(o, n), Reachable(isPublic))
  {
    if n > 0 {
      hide Gather, AllSources, Filter, SourceAt, Reachable;
      GatherExactly(o, n - 1, isPublic);
      GatherNext(o, n - 1, isPublic);
      FilterNext(AllSources(o, n - 1), SourceAt(o, n - 1), isPublic);
    } else {
      NothingGathered(o, isPublic);
    }
  }

  lemma AmongAll(o: Opensearch, n: nat, s: Source)
    requires n <= |o.titles|
    ensures s in AllSources(o, n) <==> exists i :: 0 <= i < n && SourceAt(o, i) == s
  {
    var all := AllSources(o, n);
    if s in all {
      var i :| 0 <= i < |all| && all[i] == s;
      assert SourceAt(o, i) == s;
    }
    if i :| 0 <= i < n && SourceAt(o, i) == s {
      assert all[i] == s;
    }
  }

  /** The encyclopedia returns exactly the sources of the titles within the limit that have a public
      URL and, for a query with informative words, hold enough of them. */
  lemma EncyclopediaExactly(o: Opensearch, m: Matcher, max: int, isPublic: string -> bool, s: Source)
    ensures s in Encyclopedia(Some(o), m, max, isPublic) <==>
      && (exists i :: 0 <= i < |Prefix(o.titles, max)| && i < |o.titles| && SourceAt(o, i) == s)
      && isPublic(s.url) && (InformativeTerms(m) != {} ==> Matches(m, s))
  {
    hide Gather, Relevant, Matches, AllSources, Filter, SourceAt;
    var n := |Prefix(o.titles, max)|;
    GatherExactly(o, n, isPublic);
    FilterMembers(AllSources(o, n), Reachable(isPublic));
    AmongAll(o, n, s);
    var gathered := Gather(o, n, isPublic);
    if InformativeTerms(m) != {} {
      KeptExactly(m, gathered, s);
    } else {
      UninformativeKeepsAll(m, gathered);
    }
  }

  lemma NothingGathered(o: Opensearch, isPublic: string -> bool)
    ensures Gather(o, 0, isPublic) == Filter(AllSources(o, 0), Reachable(isPublic))
  {
  }
}
