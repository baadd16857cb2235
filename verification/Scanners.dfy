/** The two event-driven scanners of search result pages. */
module Scanners {
  import opened JsonValues
  import opened Sequences

  /** What the HTML parser reports, with the attributes the scanners look at. */
  datatype HtmlEvent = StartTag(tag: string, css: string, href: string) | EndTag(tag: string) | Data(text: string)

  datatype Item = Item(title: string, url: string, snippet: string)

  /** The text and URL functions of the surrounding libraries. */
  datatype Library = Library(
    decodeUrl: string -> string, clean: string -> string, strip: string -> string, isPublic: string -> bool)

  predicate Recordable(title: string, url: string, lib: Library) {
    title != "" && url != "" && lib.isPublic(url)
  }

  // ---------------------------------------------------------------- DuckDuckGo

  datatype DuckState = DuckState(results: seq<Item>, active: Option<Item>, captureTitle: bool, snippetIndex: Option<nat>)

  const DUCK_START := DuckState([], None, false, None)

  predicate OpensLink(e: HtmlEvent) {
    e.StartTag? && e.tag == "a" && Contains(e.css, "result__a")
  }

  predicate ClosesLink(e: HtmlEvent) {
    e.EndTag? && e.tag == "a"
  }

  predicate OpensSnippet(e: HtmlEvent) {
    e.StartTag? && Contains(e.css, "result__snippet")
  }

  predicate ClosesSnippet(e: HtmlEvent) {
    e.EndTag? && (e.tag == "a" || e.tag == "div" || e.tag == "span")
  }

  /** The tags and classes that matter: links of class `result__a`, anything of class
      `result__snippet`, and the ends of links, divisions and spans. */
  lemma DuckTagsExactly(e: HtmlEvent)
    ensures OpensLink(e) <==> e.StartTag? && e.tag == "a" && exists i :: StandsAt(e.css, "result__a", i)
    ensures ClosesLink(e) <==> e.EndTag? && e.tag == "a"
    ensures OpensSnippet(e) <==> e.StartTag? && exists i :: StandsAt(e.css, "result__snippet", i)
    ensures ClosesSnippet(e) <==> e.EndTag? && e.tag in {"a", "div", "span"}
  {
    hide StandsAt, Contains;
    if e.StartTag? {
      ContainsExactly(e.css, "result__a");
      ContainsExactly(e.css, "result__snippet");
    }
  }

  function DuckStart(st: DuckState, e: HtmlEvent, max: int, lib: Library): DuckState
    requires e.StartTag?
  {
    if OpensLink(e) && |st.results| < max then
      st.(active := Some(Item("", lib.decodeUrl(e.href), "")), captureTitle := true)
    else if OpensSnippet(e) && st.results != [] then st.(snippetIndex := Some(|st.results| - 1))
    else st
  }

  function DuckEnd(st: DuckState, e: HtmlEvent, lib: Library): DuckState
    requires e.EndTag?
  {
    var closed :=
      if ClosesLink(e) && st.captureTitle && st.active.Some? then
        var title, url := lib.clean(st.active.value.title), st.active.value.url;
        st.(results := if Recordable(title, url, lib) then st.results + [Item(title, url, "")] else st.results,
            active := None, captureTitle := false)
      else st;
    if ClosesSnippet(e) then closed.(snippetIndex := None) else closed
  }

  function DuckData(st: DuckState, text: string, lib: Library): DuckState {
    if st.captureTitle && st.active.Some? then
      st.(active := Some(st.active.value.(title := lib.strip(st.active.value.title + " " + text))))
    else if st.snippetIndex.Some? && st.snippetIndex.value < |st.results| then
      var i := st.snippetIndex.value;
      st.(results := st.results[i := st.results[i].(snippet := lib.clean(st.results[i].snippet + " " + text))])
    else st
  }

  function DuckStep(st: DuckState, e: HtmlEvent, max: int, lib: Library): DuckState {
    match e
    case StartTag(_, _, _) => DuckStart(st, e, max, lib)
    case EndTag(_) => DuckEnd(st, e, lib)
    case Data(text) => DuckData(st, text, lib)
  }

  /** The state after a whole stream of events. */
  function DuckRun(events: seq<HtmlEvent>, max: int, lib: Library): DuckState {
    if events == [] then DUCK_START
    else DuckStep(DuckRun(events[..|events| - 1], max, lib), events[|events| - 1], max, lib)
  }

  ghost predicate DuckInvariant(st: DuckState, max: int, lib: Library) {
    && |st.results| <= (if max < 0 then 0 else max)
    && (st.captureTitle <==> st.active.Some?)
    && (st.active.Some? ==> |st.results| < max)
    && (st.snippetIndex.Some? ==> st.snippetIndex.value < |st.results|)
    && (forall i :: 0 <= i < |st.results| ==> Recordable(st.results[i].title, st.results[i].url, lib))
  }

  /** Results already recorded keep their title and URL. */
  ghost predicate Extends(a: seq<Item>, b: seq<Item>) {
    |a| <= |b| && forall i :: 0 <= i < |a| ==> b[i].title == a[i].title && b[i].url == a[i].url
  }

  lemma DuckStepInvariant(st: DuckState, e: HtmlEvent, max: int, lib: Library)
    requires DuckInvariant(st, max, lib)
    ensures DuckInvariant(DuckStep(st, e, max, lib), max, lib)
    ensures Extends(st.results, DuckStep(st, e, max, lib).results)
  {
    hide OpensLink, ClosesLink, OpensSnippet, ClosesSnippet;
  }

  /** Every stream keeps the scanner's invariant, and reading on only extends the results. */
  lemma {:induction false} DuckRunInvariant(events: seq<HtmlEvent>, n: nat, max: int, lib: Library)
    requires n <= |events|
    ensures DuckInvariant(DuckRun(events, max, lib), max, lib)
    ensures Extends(DuckRun(events[..n], max, lib).results, DuckRun(events, max, lib).results)
    decreases |events|
  {
    hide DuckStep, DuckInvariant;
    if events == [] {
      DuckStartGood(max, lib);
      assert events[..n] == events;
    } else {
      var init := events[..|events| - 1];
      DuckRunInvariant(init, if n < |events| then n else 0, max, lib);
      DuckStepInvariant(DuckRun(init, max, lib), events[|events| - 1], max, lib);
      if n < |events| {
        assert init[..n] == events[..n];
      } else {
        assert events[..n] == events;
      }
    }
  }

  lemma DuckStartGood(max: int, lib: Library)
    ensures DuckInvariant(DUCK_START, max, lib)
  {
  }

  // ---------------------------------------------------------------- what the results are

  /** Position of the result link that is open at the end of the stream, if any. */
  function OpenLink(events: seq<HtmlEvent>): (r: Option<nat>)
    ensures r.Some? ==> r.value < |events| && OpensLink(events[r.value])
    ensures r.Some? ==> forall i :: r.value < i < |events| ==> !ClosesLink(events[i]) && !OpensLink(events[i])
  {
    if events == [] then None
    else
      var last := |events| - 1;
      if ClosesLink(events[last]) then None
      else if OpensLink(events[last]) then Some(last)
      else OpenLink(events[..last])
  }

  /** The text of a stream: its data pieces joined by blanks and stripped. */
  function Joined(events: seq<HtmlEvent>, lib: Library): string {
    if events == [] then ""
    else
      var last := |events| - 1;
      var before := Joined(events[..last], lib);
      if events[last].Data? then lib.strip(before + " " + events[last].text) else before
  }

  /** The link that starts at position i and has just been closed. */
  function LinkFrom(events: seq<HtmlEvent>, i: nat, lib: Library): Item
    requires i < |events| && OpensLink(events[i])
  {
    Item(lib.clean(Joined(events[i + 1..], lib)), lib.decodeUrl(events[i].href), "")
  }

  /** All result links of a page, in order: one for each closing tag of an open link. */
  function Links(events: seq<HtmlEvent>, lib: Library): seq<Item> {
    if events == [] then []
    else
      var init := events[..|events| - 1];
      Links(init, lib)
      + (if ClosesLink(events[|events| - 1]) && OpenLink(init).Some? then [LinkFrom(init, OpenLink(init).value, lib)] else [])
  }

  function ValidLink(lib: Library): Item -> bool {
    (x: Item) => Recordable(x.title, x.url, lib)
  }

  function Bare(x: Item): Item {
    x.(snippet := "")
  }

  /** The recordable links of a page, up to the limit. */
  function Wanted(events: seq<HtmlEvent>, max: int, lib: Library): seq<Item> {
    UpTo(Filter(Links(events, lib), ValidLink(lib)), max)
  }

  /** The scanner's view of the open link. */
  function Pending(events: seq<HtmlEvent>, lib: Library): Option<Item> {
    var open := OpenLink(events);
    if open.None? then None
    else Some(Item(Joined(events[open.value + 1..], lib), lib.decodeUrl(events[open.value].href), ""))
  }

  lemma OpenLinkNext(init: seq<HtmlEvent>, e: HtmlEvent)
    ensures OpenLink(init + [e]) ==
      if ClosesLink(e) then None else if OpensLink(e) then Some(|init|) else OpenLink(init)
  {
    hide OpensLink, ClosesLink;
    assert (init + [e])[..|init|] == init;
  }

  lemma JoinedNext(init: seq<HtmlEvent>, e: HtmlEvent, lib: Library)
    ensures Joined(init + [e], lib) == if e.Data? then lib.strip(Joined(init, lib) + " " + e.text) else Joined(init, lib)
  {
    assert (init + [e])[..|init|] == init;
  }

  lemma PendingNext(init: seq<HtmlEvent>, e: HtmlEvent, lib: Library)
    ensures Pending(init + [e], lib) ==
      if ClosesLink(e) then None
      else if OpensLink(e) then Some(Item("", lib.decodeUrl(e.href), ""))
      else if Pending(init, lib).Some? && e.Data? then
        Some(Pending(init, lib).value.(title := lib.strip(Pending(init, lib).value.title + " " + e.text)))
      else Pending(init, lib)
  {
    hide OpenLink, Joined, OpensLink, ClosesLink;
    OpenLinkNext(init, e);
    var open := OpenLink(init + [e]);
    if open.Some? {
      if open.value == |init| {
        assert (init + [e])[|init| + 1..] == [];
        JoinedNothing(lib);
      } else {
        assert (init + [e])[open.value + 1..] == init[open.value + 1..] + [e];
        JoinedNext(init[open.value + 1..], e, lib);
      }
    }
  }

  lemma JoinedNothing(lib: Library)
    ensures Joined([], lib) == ""
  {
  }

  lemma WantedNext(init: seq<HtmlEvent>, e: HtmlEvent, max: int, lib: Library)
    ensures Wanted(init + [e], max, lib) ==
      var p := Pending(init, lib);
      if ClosesLink(e) && p.Some? && |Wanted(init, max, lib)| < max && Recordable(lib.clean(p.value.title), p.value.url, lib)
      then Wanted(init, max, lib) + [Item(lib.clean(p.value.title), p.value.url, "")]
      else Wanted(init, max, lib)
  {
    hide OpenLink, Joined, ClosesLink, OpensLink, Filter;
    var events := init + [e];
    var p := Pending(init, lib);
    var added := if ClosesLink(e) && p.Some? then [Item(lib.clean(p.value.title), p.value.url, "")] else [];
    assert Links(events, lib) == Links(init, lib) + added by {
      assert events[..|init|] == init && events[|init|] == e;
    }
    FilterConcat(Links(init, lib), added, ValidLink(lib));
    if added == [] || !ValidLink(lib)(added[0]) {
      FilterNone(added, ValidLink(lib));
    } else {
      FilterAll(added, ValidLink(lib));
    }
  }

  /** Refinement: for every stream, the titles and URLs recorded are exactly the first recordable
      links of the page, as many as the limit allows. */
  lemma {:induction false} DuckRecordsLinks(events: seq<HtmlEvent>, max: int, lib: Library)
    ensures var st := DuckRun(events, max, lib);
      && Map(st.results, Bare) == Wanted(events, max, lib)
      && st.active == (if |st.results| < max then Pending(events, lib) else None)
    decreases |events|
  {
    if events != [] {
      var init, e := events[..|events| - 1], events[|events| - 1];
      DuckRecordsLinks(init, max, lib);
      DuckRunInvariant(init, 0, max, lib);
      assert events == init + [e];
      DuckRecordsStep(DuckRun(init, max, lib), init, e, max, lib);
    }
  }

  lemma DuckRecordsStep(st: DuckState, init: seq<HtmlEvent>, e: HtmlEvent, max: int, lib: Library)
    requires DuckInvariant(st, max, lib)
    requires Map(st.results, Bare) == Wanted(init, max, lib)
    requires st.active == if |st.results| < max then Pending(init, lib) else None
    ensures var t := DuckStep(st, e, max, lib);
      && Map(t.results, Bare) == Wanted(init + [e], max, lib)
      && t.active == (if |t.results| < max then Pending(init + [e], lib) else None)
  {
    hide Wanted, Pending, OpensLink, ClosesLink, OpensSnippet, ClosesSnippet;
    PendingNext(init, e, lib);
    WantedNext(init, e, max, lib);
    Disjoint(e);
    var t := DuckStep(st, e, max, lib);
    if |t.results| > |st.results| {
      assert Map(t.results, Bare) == Map(st.results, Bare) + [Bare(t.results[|st.results|])];
    } else {
      assert Map(t.results, Bare) == Map(st.results, Bare);
    }
  }

  lemma Disjoint(e: HtmlEvent)
    ensures OpensLink(e) ==> e.StartTag?
    ensures ClosesLink(e) ==> e.EndTag?
  {
  }

  // ---------------------------------------------------------------- what the snippets are

  /** The stream ends inside a link that will be recorded if it is recordable. */
  predicate InTitle(events: seq<HtmlEvent>, max: int, lib: Library) {
    |Wanted(events, max, lib)| < max && OpenLink(events).Some?
  }

  /** The event starts a snippet: it carries the class, some result has been found and it does not
      open a result link of its own. */
  predicate StartsSnippet(before: seq<HtmlEvent>, e: HtmlEvent, max: int, lib: Library) {
    OpensSnippet(e) && Wanted(before, max, lib) != [] && !(OpensLink(e) && |Wanted(before, max, lib)| < max)
  }

  /** The result to which the open snippet belongs: the last one found when the snippet started. */
  function SnippetOf(events: seq<HtmlEvent>, max: int, lib: Library): Option<nat> {
    if events == [] then None
    else
      var init, e := events[..|events| - 1], events[|events| - 1];
      if ClosesSnippet(e) then None
      else if StartsSnippet(init, e, max, lib) then Some(|Wanted(init, max, lib)| - 1)
      else SnippetOf(init, max, lib)
  }

  /** The snippet of the n-th result: the text inside its snippets, but outside titles. */
  function SnippetText(events: seq<HtmlEvent>, n: nat, max: int, lib: Library): string {
    if events == [] then ""
    else
      var init, e := events[..|events| - 1], events[|events| - 1];
      var before := SnippetText(init, n, max, lib);
      if e.Data? && !InTitle(init, max, lib) && SnippetOf(init, max, lib) == Some(n) then lib.clean(before + " " + e.text)
      else before
  }

  /** The wanted links of a page with their snippets. */
  function WantedResults(events: seq<HtmlEvent>, max: int, lib: Library): seq<Item> {
    seq(|Wanted(events, max, lib)|, n requires 0 <= n < |Wanted(events, max, lib)| =>
      Wanted(events, max, lib)[n].(snippet := SnippetText(events, n, max, lib)))
  }

  /** Snippets belong to results that have been found, and the others have no text yet. */
  lemma {:induction false} SnippetsInRange(events: seq<HtmlEvent>, max: int, lib: Library)
    ensures var found := |Wanted(events, max, lib)|;
      && (SnippetOf(events, max, lib).Some? ==> SnippetOf(events, max, lib).value < found)
      && (forall n: nat :: n >= found ==> SnippetText(events, n, max, lib) == "")
    decreases |events|
  {
    hide Wanted, OpenLink, OpensLink, OpensSnippet, ClosesSnippet;
    if events != [] {
      var init, e := events[..|events| - 1], events[|events| - 1];
      SnippetsInRange(init, max, lib);
      WantedNext(init, e, max, lib);
      assert events == init + [e];
    }
  }

  /** The scanner's snippets are those of the page. */
  ghost predicate SnippetsTracked(st: DuckState, events: seq<HtmlEvent>, max: int, lib: Library) {
    && st.snippetIndex == SnippetOf(events, max, lib)
    && forall n :: 0 <= n < |st.results| ==> st.results[n].snippet == SnippetText(events, n, max, lib)
  }

  lemma DuckSnippetStep(st: DuckState, init: seq<HtmlEvent>, e: HtmlEvent, max: int, lib: Library)
    requires DuckInvariant(st, max, lib) && SnippetsTracked(st, init, max, lib)
    requires |st.results| == |Wanted(init, max, lib)| && st.active.Some? == InTitle(init, max, lib)
    ensures SnippetsTracked(DuckStep(st, e, max, lib), init + [e], max, lib)
  {
    hide Wanted, OpenLink, OpensLink, ClosesLink, OpensSnippet, ClosesSnippet;
    assert (init + [e])[..|init|] == init;
    SnippetsInRange(init, max, lib);
    Disjoint(e);
    SnippetTags(e);
  }

  lemma SnippetTags(e: HtmlEvent)
    ensures OpensSnippet(e) ==> e.StartTag?
    ensures ClosesSnippet(e) ==> e.EndTag?
  {
  }

  /** Refinement: for every stream the results are exactly the first recordable links of the page with
      their snippets. Text of snippets behind the limit goes to the last result. */
  lemma {:induction false} DuckRecordsResults(events: seq<HtmlEvent>, max: int, lib: Library)
    ensures SnippetsTracked(DuckRun(events, max, lib), events, max, lib)
    ensures DuckRun(events, max, lib).results == WantedResults(events, max, lib)
    decreases |events|
  {
    hide Wanted, DuckStep, SnippetsTracked, DuckInvariant;
    var st := DuckRun(events, max, lib);
    assert SnippetsTracked(st, events, max, lib) by {
      if events == [] {
        NoSnippetsYet(max, lib);
      } else {
        var init, e := events[..|events| - 1], events[|events| - 1];
        DuckRecordsResults(init, max, lib);
        DuckRecordsLinks(init, max, lib);
        DuckRunInvariant(init, 0, max, lib);
        DuckSnippetStep(DuckRun(init, max, lib), init, e, max, lib);
        assert events == init + [e];
      }
    }
    DuckRecordsLinks(events, max, lib);
    ResultsFromParts(st, events, max, lib);
  }

  lemma NoSnippetsYet(max: int, lib: Library)
    ensures SnippetsTracked(DUCK_START, [], max, lib)
  {
  }

  lemma ResultsFromParts(st: DuckState, events: seq<HtmlEvent>, max: int, lib: Library)
    requires SnippetsTracked(st, events, max, lib) && Map(st.results, Bare) == Wanted(events, max, lib)
    ensures st.results == WantedResults(events, max, lib)
  {
    hide Wanted, SnippetText, SnippetOf;
    forall n | 0 <= n < |st.results| ensures st.results[n] == WantedResults(events, max, lib)[n] {
      assert Bare(st.results[n]) == Wanted(events, max, lib)[n];
    }
  }

  class DuckScanner {
    const maxResults: int
    const lib: Library
    var results: seq<Item>
    var active: Option<Item>
    var captureTitle: bool
    var snippetIndex: Option<nat>

    ghost function State(): DuckState
      reads this
    {
      DuckState(results, active, captureTitle, snippetIndex)
    }

    constructor (maxResults: int, lib: Library)
      ensures this.maxResults == maxResults && this.lib == lib && State() == DUCK_START
    {
      this.maxResults, this.lib := maxResults, lib;
      results, active, captureTitle, snippetIndex := [], None, false, None;
    }

    method HandleStartTag(e: HtmlEvent)
      requires e.StartTag?
      modifies this
      ensures State() == DuckStart(old(State()), e, maxResults, lib)
    {
      hide Contains;
      if e.tag == "a" && Contains(e.css, "result__a") && |results| < maxResults {
        active := Some(Item("", lib.decodeUrl(e.href), ""));
        captureTitle := true;
        return;
      }
      if Contains(e.css, "result__snippet") && results != [] {
        snippetIndex := Some(|results| - 1);
      }
    }

    method HandleEndTag(e: HtmlEvent)
      requires e.EndTag?
      modifies this
      ensures State() == DuckEnd(old(State()), e, lib)
    {
      if e.tag == "a" && captureTitle && active.Some? {
        var title, url := lib.clean(active.value.title), active.value.url;
        if title != "" && url != "" && lib.isPublic(url) {
          results := results + [Item(title, url, "")];
        }
        active := None;
        captureTitle := false;
      }
      if snippetIndex.Some? && (e.tag == "a" || e.tag == "div" || e.tag == "span") {
        snippetIndex := None;
      }
    }

    method HandleData(text: string)
      modifies this
      ensures State() == DuckData(old(State()), text, lib)
    {
      if captureTitle && active.Some? {
        active := Some(active.value.(title := lib.strip(active.value.title + " " + text)));
      } else if snippetIndex.Some? && snippetIndex.value < |results| {
        var i := snippetIndex.value;
        results := results[i := results[i].(snippet := lib.clean(results[i].snippet + " " + text))];
      }
    }

    /** Reading a page from the start: the results are the wanted links of the page with their snippets. */
    method Feed(events: seq<HtmlEvent>)
      requires State() == DUCK_START
      modifies this
      ensures State() == DuckRun(events, maxResults, lib)
      ensures results == WantedResults(events, maxResults, lib)
    {
      hide DuckStart, DuckEnd, DuckData, WantedResults;
      for n := 0 to |events|
        invariant State() == DuckRun(events[..n], maxResults, lib)
      {
        var e := events[n];
        assert events[..n + 1][..n] == events[..n];
        match e
        case StartTag(_, _, _) => HandleStartTag(e);
        case EndTag(_) => HandleEndTag(e);
        case Data(text) => HandleData(text);
      }
      assert events[..|events|] == events;
      DuckRecordsResults(events, maxResults, lib);
    }
  }

  // ---------------------------------------------------------------- Bing

  datatype BingState = BingState(
    results: seq<Item>, active: Option<Item>, insideH2: bool, captureTitle: bool, captureSnippet: bool)

  function BingStart(st: BingState, e: HtmlEvent, max: int, lib: Library): BingState
    requires e.StartTag?
  {
    if e.tag == "li" && Contains(e.css, "b_algo") && |st.results| < max then st.(active := Some(Item("", "", "")))
    else if st.active.Some? && e.tag == "h2" then st.(insideH2 := true)
    else if st.active.Some? && st.insideH2 && e.tag == "a" && st.active.value.url == "" then
      var url := lib.decodeUrl(e.href);
      if lib.isPublic(url) then st.(active := Some(st.active.value.(url := url)), captureTitle := true) else st
    else if st.active.Some? && e.tag == "p" then st.(captureSnippet := true)
    else st
  }

  function BingEnd(st: BingState, e: HtmlEvent, lib: Library): BingState
    requires e.EndTag?
  {
    if e.tag == "a" then st.(captureTitle := false)
    else if e.tag == "h2" then st.(insideH2 := false, captureTitle := false)
    else if e.tag == "p" then st.(captureSnippet := false)
    else if e.tag == "li" && st.active.Some? then
      var title, url := lib.clean(st.active.value.title), st.active.value.url;
      BingState(if Recordable(title, url, lib) then st.results + [Item(title, url, lib.clean(st.active.value.snippet))] else st.results,
                None, false, false, false)
    else st
  }

  function BingData(st: BingState, text: string, lib: Library): BingState {
    if st.active.None? then st
    else if st.captureTitle then st.(active := Some(st.active.value.(title := lib.clean(st.active.value.title + " " + text))))
    else if st.captureSnippet then st.(active := Some(st.active.value.(snippet := lib.clean(st.active.value.snippet + " " + text))))
    else st
  }

  function BingStep(st: BingState, e: HtmlEvent, max: int, lib: Library): BingState {
    match e
    case StartTag(_, _, _) => BingStart(st, e, max, lib)
    case EndTag(_) => BingEnd(st, e, lib)
    case Data(text) => BingData(st, text, lib)
  }

  function BingRun(events: seq<HtmlEvent>, max: int, lib: Library): BingState {
    if events == [] then BingState([], None, false, false, false)
    else BingStep(BingRun(events[..|events| - 1], max, lib), events[|events| - 1], max, lib)
  }

  ghost predicate BingInvariant(st: BingState, max: int, lib: Library) {
    && |st.results| <= (if max < 0 then 0 else max)
    && (st.active.Some? ==> |st.results| < max && (st.active.value.url == "" || lib.isPublic(st.active.value.url)))
    && (st.insideH2 || st.captureTitle || st.captureSnippet ==> st.active.Some?)
    && (forall i :: 0 <= i < |st.results| ==> Recordable(st.results[i].title, st.results[i].url, lib))
  }

  lemma BingStepInvariant(st: BingState, e: HtmlEvent, max: int, lib: Library)
    requires BingInvariant(st, max, lib)
    ensures BingInvariant(BingStep(st, e, max, lib), max, lib)
    ensures st.results <= BingStep(st, e, max, lib).results
  {
    hide Contains;
  }

  /** Every stream keeps the scanner's invariant, and recorded results never change. */
  lemma {:induction false} BingRunInvariant(events: seq<HtmlEvent>, n: nat, max: int, lib: Library)
    requires n <= |events|
    ensures BingInvariant(BingRun(events, max, lib), max, lib)
    ensures BingRun(events[..n], max, lib).results <= BingRun(events, max, lib).results
    decreases |events|
  {
    hide BingStep;
    if events == [] {
      assert events[..n] == events;
    } else {
      var init := events[..|events| - 1];
      BingRunInvariant(init, if n < |events| then n else 0, max, lib);
      BingStepInvariant(BingRun(init, max, lib), events[|events| - 1], max, lib);
      if n < |events| {
        assert init[..n] == events[..n];
      } else {
        assert events[..n] == events;
      }
    }
  }

  // ---------------------------------------------------------------- what the Bing results are

  predicate OpensItem(e: HtmlEvent) {
    e.StartTag? && e.tag == "li" && Contains(e.css, "b_algo")
  }

  predicate Starts(e: HtmlEvent, tag: string) {
    e.StartTag? && e.tag == tag
  }

  predicate Ends(e: HtmlEvent, tag: string) {
    e.EndTag? && e.tag == tag
  }

  /** Result items are list items of class `b_algo`. */
  lemma BingTagsExactly(e: HtmlEvent)
    ensures OpensItem(e) <==> e.StartTag? && e.tag == "li" && exists i :: StandsAt(e.css, "b_algo", i)
  {
    hide StandsAt, Contains;
    if e.StartTag? {
      ContainsExactly(e.css, "b_algo");
    }
  }

  /** Position of the result item that is open at the end of the stream, if any: the last one
      started after the last end of a list item. */
  function OpenItem(events: seq<HtmlEvent>): (r: Option<nat>)
    ensures r.Some? ==> r.value < |events| && OpensItem(events[r.value])
    ensures r.Some? ==> forall i :: r.value < i < |events| ==> !OpensItem(events[i]) && !Ends(events[i], "li")
  {
    if events == [] then None
    else
      var last := |events| - 1;
      if Ends(events[last], "li") then None
      else if OpensItem(events[last]) then Some(last)
      else OpenItem(events[..last])
  }

  /** The stream ends inside a heading that was started within an item. A new item does not end it. */
  predicate InHeading(events: seq<HtmlEvent>) {
    events != [] &&
    var init, e := events[..|events| - 1], events[|events| - 1];
    if Ends(e, "li") || Ends(e, "h2") then false
    else (Starts(e, "h2") && OpenItem(init).Some?) || InHeading(init)
  }

  /** The stream ends inside a paragraph that was started within an item. */
  predicate InParagraph(events: seq<HtmlEvent>) {
    events != [] &&
    var init, e := events[..|events| - 1], events[|events| - 1];
    if Ends(e, "li") || Ends(e, "p") then false
    else (Starts(e, "p") && OpenItem(init).Some?) || InParagraph(init)
  }

  /** The event is a public link in a heading. */
  predicate HeadingLink(before: seq<HtmlEvent>, e: HtmlEvent, lib: Library) {
    InHeading(before) && Starts(e, "a") && lib.isPublic(lib.decodeUrl(e.href))
  }

  /** The address of the open item: its first public heading link that has one. */
  function ItemUrl(events: seq<HtmlEvent>, from: nat, lib: Library): string {
    if |events| <= from then ""
    else
      var init, e := events[..|events| - 1], events[|events| - 1];
      var earlier := ItemUrl(init, from, lib);
      if earlier == "" && HeadingLink(init, e, lib) then lib.decodeUrl(e.href) else earlier
  }

  function OpenUrl(events: seq<HtmlEvent>, lib: Library): string {
    if OpenItem(events).None? then "" else ItemUrl(events, OpenItem(events).value + 1, lib)
  }

  /** The stream ends inside the link that gave an item its address. A new item does not end it. */
  predicate InLink(events: seq<HtmlEvent>, lib: Library) {
    events != [] &&
    var init, e := events[..|events| - 1], events[|events| - 1];
    if Ends(e, "li") || Ends(e, "h2") || Ends(e, "a") then false
    else (HeadingLink(init, e, lib) && OpenUrl(init, lib) == "") || InLink(init, lib)
  }

  /** The text behind position `from` that lies inside the link, or else inside a paragraph. */
  function ItemText(events: seq<HtmlEvent>, from: nat, link: bool, lib: Library): string {
    if |events| <= from then ""
    else
      var init, e := events[..|events| - 1], events[|events| - 1];
      var before := ItemText(init, from, link, lib);
      if e.Data? && InLink(init, lib) == link && (link || InParagraph(init)) then lib.clean(before + " " + e.text) else before
  }

  /** The item that starts at position i, as read so far. */
  function ItemFrom(events: seq<HtmlEvent>, i: nat, lib: Library): Item {
    Item(ItemText(events, i + 1, true, lib), ItemUrl(events, i + 1, lib), ItemText(events, i + 1, false, lib))
  }

  function Cleaned(x: Item, lib: Library): Item {
    Item(lib.clean(x.title), x.url, lib.clean(x.snippet))
  }

  /** All result items of a page, in order: one for each end of a list item with an open result. */
  function Items(events: seq<HtmlEvent>, lib: Library): seq<Item> {
    if events == [] then []
    else
      var init, e := events[..|events| - 1], events[|events| - 1];
      Items(init, lib)
      + (if Ends(e, "li") && OpenItem(init).Some? then [Cleaned(ItemFrom(init, OpenItem(init).value, lib), lib)] else [])
  }

  /** The recordable items of a page, up to the limit. */
  function WantedItems(events: seq<HtmlEvent>, max: int, lib: Library): seq<Item> {
    UpTo(Filter(Items(events, lib), ValidLink(lib)), max)
  }

  /** The scanner's state while there is room for another result. */
  function Reading(events: seq<HtmlEvent>, results: seq<Item>, lib: Library): BingState {
    BingState(results, if OpenItem(events).None? then None else Some(ItemFrom(events, OpenItem(events).value, lib)),
              InHeading(events), InLink(events, lib), InParagraph(events))
  }

  /** Flags are raised only while an item is open. */
  lemma {:induction false} FlagsNeedItem(events: seq<HtmlEvent>, lib: Library)
    ensures OpenItem(events).None? ==> !InHeading(events) && !InLink(events, lib) && !InParagraph(events)
  {
    if events != [] {
      FlagsNeedItem(events[..|events| - 1], lib);
    }
  }

  lemma OpenItemNext(init: seq<HtmlEvent>, e: HtmlEvent)
    ensures OpenItem(init + [e]) ==
      if Ends(e, "li") then None else if OpensItem(e) then Some(|init|) else OpenItem(init)
  {
    hide Ends, OpensItem;
    assert (init + [e])[..|init|] == init;
  }

  lemma FlagsNext(init: seq<HtmlEvent>, e: HtmlEvent, lib: Library)
    ensures InHeading(init + [e]) ==
      (!Ends(e, "li") && !Ends(e, "h2") && ((Starts(e, "h2") && OpenItem(init).Some?) || InHeading(init)))
    ensures InParagraph(init + [e]) ==
      (!Ends(e, "li") && !Ends(e, "p") && ((Starts(e, "p") && OpenItem(init).Some?) || InParagraph(init)))
    ensures InLink(init + [e], lib) ==
      (!Ends(e, "li") && !Ends(e, "h2") && !Ends(e, "a")
       && ((HeadingLink(init, e, lib) && OpenUrl(init, lib) == "") || InLink(init, lib)))
  {
    hide Ends, Starts, OpenItem, HeadingLink, OpenUrl;
    assert (init + [e])[..|init|] == init;
  }

  lemma ItemNext(init: seq<HtmlEvent>, e: HtmlEvent, i: nat, lib: Library)
    requires i < |init|
    ensures var x := ItemFrom(init, i, lib);
      ItemFrom(init + [e], i, lib) ==
      if e.Data? && InLink(init, lib) then x.(title := lib.clean(x.title + " " + e.text))
      else if e.Data? && InParagraph(init) then x.(snippet := lib.clean(x.snippet + " " + e.text))
      else if x.url == "" && HeadingLink(init, e, lib) then x.(url := lib.decodeUrl(e.href))
      else x
  {
    hide InLink, InParagraph, InHeading;
    assert (init + [e])[..|init|] == init;
  }

  lemma NewItem(init: seq<HtmlEvent>, e: HtmlEvent, lib: Library)
    ensures ItemFrom(init + [e], |init|, lib) == Item("", "", "")
  {
  }

  lemma ReadingNext(init: seq<HtmlEvent>, e: HtmlEvent, results: seq<Item>, max: int, lib: Library)
    requires |results| < max
    ensures var st := Reading(init, results, lib);
      var t := BingStep(st, e, max, lib);
      var open := OpenItem(init);
      if Ends(e, "li") && open.Some? then
        var item := Cleaned(ItemFrom(init, open.value, lib), lib);
        t == BingState(if Recordable(item.title, item.url, lib) then results + [item] else results, None, false, false, false)
      else t == Reading(init + [e], results, lib)
  {
    hide Contains, OpenItem, InHeading, InLink, InParagraph, ItemFrom;
    FlagsNeedItem(init, lib);
    OpenItemNext(init, e);
    FlagsNext(init, e, lib);
    NewItem(init, e, lib);
    OpenUrlIsItems(init, lib);
    if OpenItem(init).Some? {
      ItemNext(init, e, OpenItem(init).value, lib);
    }
  }

  lemma OpenUrlIsItems(events: seq<HtmlEvent>, lib: Library)
    ensures OpenUrl(events, lib) == if OpenItem(events).None? then "" else ItemFrom(events, OpenItem(events).value, lib).url
    ensures OpenItem(events).Some? ==> OpenItem(events).value < |events|
  {
    hide ItemUrl, ItemText;
  }

  lemma WantedItemsNext(init: seq<HtmlEvent>, e: HtmlEvent, max: int, lib: Library)
    ensures WantedItems(init + [e], max, lib) ==
      var wanted, open := WantedItems(init, max, lib), OpenItem(init);
      if Ends(e, "li") && open.Some? && |wanted| < max && ValidLink(lib)(Cleaned(ItemFrom(init, open.value, lib), lib))
      then wanted + [Cleaned(ItemFrom(init, open.value, lib), lib)]
      else wanted
  {
    hide OpenItem, ItemFrom, Ends, Filter, ValidLink;
    var events, open := init + [e], OpenItem(init);
    var added := if Ends(e, "li") && open.Some? then [Cleaned(ItemFrom(init, open.value, lib), lib)] else [];
    assert Items(events, lib) == Items(init, lib) + added by {
      assert events[..|init|] == init && events[|init|] == e;
    }
    FilterConcat(Items(init, lib), added, ValidLink(lib));
    if added == [] || !ValidLink(lib)(added[0]) {
      FilterNone(added, ValidLink(lib));
    } else {
      FilterAll(added, ValidLink(lib));
    }
  }

  /** The scanner has recorded the wanted items, and while there is room it reads the page. */
  ghost predicate BingTracks(st: BingState, events: seq<HtmlEvent>, max: int, lib: Library) {
    && st.results == WantedItems(events, max, lib)
    && (|st.results| < max ==> st == Reading(events, st.results, lib))
  }

  lemma BingTracksNext(st: BingState, init: seq<HtmlEvent>, e: HtmlEvent, max: int, lib: Library)
    requires BingInvariant(st, max, lib) && BingTracks(st, init, max, lib)
    ensures BingTracks(BingStep(st, e, max, lib), init + [e], max, lib)
  {
    hide WantedItems, ItemFrom, InHeading, InLink, InParagraph, Contains;
    WantedItemsNext(init, e, max, lib);
    if |st.results| < max {
      ReadingNext(init, e, st.results, max, lib);
      FlagsNeedItem(init + [e], lib);
    }
  }

  /** Refinement: for every stream the results are exactly the first recordable items of the page,
      with title, URL and snippet, as many as the limit allows. */
  lemma {:induction false} BingRecordsItems(events: seq<HtmlEvent>, max: int, lib: Library)
    ensures BingTracks(BingRun(events, max, lib), events, max, lib)
    decreases |events|
  {
    if events != [] {
      hide BingTracks, BingInvariant, BingStep;
      var init := events[..|events| - 1];
      BingRecordsItems(init, max, lib);
      BingRunInvariant(init, 0, max, lib);
      BingTracksNext(BingRun(init, max, lib), init, events[|events| - 1], max, lib);
      assert events == init + [events[|events| - 1]];
    }
  }

  class BingScanner {
    const maxResults: int
    const lib: Library
    var results: seq<Item>
    var active: Option<Item>
    var insideH2: bool
    var captureTitle: bool
    var captureSnippet: bool

    ghost function State(): BingState
      reads this
    {
      BingState(results, active, insideH2, captureTitle, captureSnippet)
    }

    constructor (maxResults: int, lib: Library)
      ensures this.maxResults == maxResults && this.lib == lib && State() == BingRun([], maxResults, lib)
    {
      this.maxResults, this.lib := maxResults, lib;
      results, active, insideH2, captureTitle, captureSnippet := [], None, false, false, false;
    }

    method HandleStartTag(e: HtmlEvent)
      requires e.StartTag?
      modifies this
      ensures State() == BingStart(old(State()), e, maxResults, lib)
    {
      hide Contains;
      if e.tag == "li" && Contains(e.css, "b_algo") && |results| < maxResults {
        active := Some(Item("", "", ""));
        return;
      }
      if active.Some? && e.tag == "h2" {
        insideH2 := true;
        return;
      }
      if active.Some? && insideH2 && e.tag == "a" && active.value.url == "" {
        var url := lib.decodeUrl(e.href);
        if lib.isPublic(url) {
          active := Some(active.value.(url := url));
          captureTitle := true;
        }
        return;
      }
      if active.Some? && e.tag == "p" {
        captureSnippet := true;
      }
    }

    method HandleEndTag(e: HtmlEvent)
      requires e.EndTag?
      modifies this
      ensures State() == BingEnd(old(State()), e, lib)
    {
      if e.tag == "a" {
        captureTitle := false;
      }
      if e.tag == "h2" {
        insideH2 := false;
        captureTitle := false;
      }
      if e.tag == "p" {
        captureSnippet := false;
      }
      if e.tag == "li" && active.Some? {
        var title, url := lib.clean(active.value.title), active.value.url;
        var snippet := lib.clean(active.value.snippet);
        if title != "" && url != "" && lib.isPublic(url) {
          results := results + [Item(title, url, snippet)];
        }
        active := None;
        insideH2 := false;
        captureTitle := false;
        captureSnippet := false;
      }
    }

    method HandleData(text: string)
      modifies this
      ensures State() == BingData(old(State()), text, lib)
    {
      if active.None? {
        return;
      }
      if captureTitle {
        active := Some(active.value.(title := lib.clean(active.value.title + " " + text)));
      } else if captureSnippet {
        active := Some(active.value.(snippet := lib.clean(active.value.snippet + " " + text)));
      }
    }

    /** Reading a page from the start: the results are the wanted items of the page. */
    method Feed(events: seq<HtmlEvent>)
      requires State() == BingRun([], maxResults, lib)
      modifies this
      ensures State() == BingRun(events, maxResults, lib)
      ensures results == WantedItems(events, maxResults, lib)
    {
      hide BingStart, BingEnd, BingData, WantedItems;
      for n := 0 to |events|
        invariant State() == BingRun(events[..n], maxResults, lib)
      {
        var e := events[n];
        assert events[..n + 1][..n] == events[..n];
        match e
        case StartTag(_, _, _) => HandleStartTag(e);
        case EndTag(_) => HandleEndTag(e);
        case Data(text) => HandleData(text);
      }
      assert events[..|events|] == events;
      BingRecordsItems(events, maxResults, lib);
    }
  }
}
