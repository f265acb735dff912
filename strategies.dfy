/** What one scraping run does, as a value: the addresses it navigates to, the
    scroll actions it performs, the transcript it accumulates and whether it
    ends with an exception. The scraper's methods are proved to produce it. */
module Strategies {
  import opened Wrappers
  import opened Text
  import opened Content
  import opened Pagination
  import opened Scrolling
  import opened Browser

  datatype Trace = Trace(visits: seq<string>, scrolls: nat, transcript: string, raised: bool)

  /** A strategy that stopped at its parameter check: no navigation, nothing
      appended, no exception. */
  const NoRun := Trace([], 0, "", false)

  /** The three choices of the scraping-type radio buttons. */
  datatype Mode = Single | Multi | Scroll

  /** The numbers read from the entry fields: `None` when `int(...)` or
      `float(...)` raised `ValueError`. */
  datatype Settings = Settings(pages: Option<int>, scrolls: Option<int>, wait: Option<real>)

  /** What one extraction pass appends to the transcript. */
  function Block(nodes: seq<Node>, prefix: string): string {
    Extract(nodes, prefix) + "\n"
  }

  const ScrollPrefix := "\n=== SCROLLED CONTENT ===\n"

  /** `scrape_single_page`: one navigation, one extraction with no prefix. */
  function SinglePage(site: map<string, Page>, url: string): Trace {
    if url in site then Trace([url], 0, Block(site[url].dom, ""), false)
    else Trace([url], 0, "", true)
  }

  /** The page count is an integer of at least 1. */
  predicate ValidPages(pages: Option<int>) {
    pages.Some? && pages.value >= 1
  }

  /** The paginated strategy after the loop has handled pages 1 to `k`: it
      stops at the first page that fails to load. */
  function PagedUpTo(site: map<string, Page>, url: string, k: nat): (t: Trace)
    ensures t.scrolls == 0 && |t.visits| <= k
  {
    if k == 0 then NoRun
    else
      var t := PagedUpTo(site, url, k - 1);
      var u := PageUrl(url, k);
      if t.raised then t
      else if u in site then Trace(t.visits + [u], 0, t.transcript + Block(site[u].dom, PagePrefix(k)), false)
      else Trace(t.visits + [u], 0, t.transcript, true)
  }

  /** `scrape_multiple_pages`. */
  function MultiPage(site: map<string, Page>, url: string, pages: Option<int>): Trace {
    if ValidPages(pages) then PagedUpTo(site, url, pages.value) else NoRun
  }

  /** At least one scroll iteration and a wait of at least half a second. */
  predicate ValidScroll(scrolls: Option<int>, wait: Option<real>) {
    scrolls.Some? && wait.Some? && !(scrolls.value < 1 || wait.value < 0.5)
  }

  /** `scrape_infinite_scroll`: one navigation, scrolling until the height stops
      changing or the iterations run out, then exactly one extraction. */
  function InfiniteScroll(site: map<string, Page>, url: string, scrolls: Option<int>, wait: Option<real>): Trace {
    if !ValidScroll(scrolls, wait) then NoRun
    else if url !in site then Trace([url], 0, "", true)
    else Trace([url], ScrollActions(site[url].heights, scrolls.value), Block(site[url].dom, ScrollPrefix), false)
  }

  /** The strategy the run dispatches to. */
  function Run(site: map<string, Page>, url: string, mode: Mode, settings: Settings): Trace {
    match mode
    case Single => SinglePage(site, url)
    case Multi => MultiPage(site, url, settings.pages)
    case Scroll => InfiniteScroll(site, url, settings.scrolls, settings.wait)
  }

  /** Once a page has failed, later iterations change nothing. */
  lemma {:induction false} PagedRaisedSticks(site: map<string, Page>, url: string, k: nat, m: nat)
    requires k <= m && PagedUpTo(site, url, k).raised
    ensures PagedUpTo(site, url, m) == PagedUpTo(site, url, k)
  {
    if k < m {
      PagedRaisedSticks(site, url, k, m - 1);
    }
  }

  /** One iteration of the paginated loop, after an iteration that raised
      nothing. A proof step for the loop in `ScrapeMultiplePages`: it unfolds
      `PagedUpTo` once. */
  lemma PagedStep(site: map<string, Page>, url: string, k: nat)
    requires k >= 1 && !PagedUpTo(site, url, k - 1).raised
    ensures var before, u := PagedUpTo(site, url, k - 1), PageUrl(url, k);
      PagedUpTo(site, url, k) ==
        if u in site then Trace(before.visits + [u], 0, before.transcript + Block(site[u].dom, PagePrefix(k)), false)
        else Trace(before.visits + [u], 0, before.transcript, true)
  {
  }

  /** Pages 1 to `n` all load. */
  predicate AllLoaded(site: map<string, Page>, url: string, n: nat) {
    forall i :: 1 <= i <= n ==> PageUrl(url, i) in site
  }

  /** The concatenation of the blocks of pages 1 to `n`, each opened by its
      page label. */
  function PageBlocks(site: map<string, Page>, url: string, n: nat): string
    requires AllLoaded(site, url, n)
  {
    if n == 0 then "" else PageBlocks(site, url, n - 1) + Block(site[PageUrl(url, n)].dom, PagePrefix(n))
  }

  /** When pages 1 to `k` all load, the loop visits them in order, appends one
      labelled block per page in page order, and raises nothing. */
  lemma {:induction false} PagedAllLoaded(site: map<string, Page>, url: string, k: nat)
    requires AllLoaded(site, url, k)
    ensures PagedUpTo(site, url, k) == Trace(PageUrls(url, k), 0, PageBlocks(site, url, k), false)
  {
    if k > 0 {
      PagedAllLoaded(site, url, k - 1);
    }
  }

  /** When page `j` is the first that fails to load, the loop visits pages 1 to
      `j` and no further, keeps the blocks of pages 1 to `j - 1`, and ends with
      the exception. */
  lemma PagedFirstFailure(site: map<string, Page>, url: string, k: nat, j: nat)
    requires 1 <= j <= k && AllLoaded(site, url, j - 1) && PageUrl(url, j) !in site
    ensures PagedUpTo(site, url, k) == Trace(PageUrls(url, j), 0, PageBlocks(site, url, j - 1), true)
  {
    PagedAllLoaded(site, url, j - 1);
    PagedRaisedSticks(site, url, j, k);
  }

  /** Each page's block starts with its label. */
  lemma PageBlockLabelled(nodes: seq<Node>, page: nat)
    ensures Block(nodes, PagePrefix(page))[..|PagePrefix(page)|] == PagePrefix(page)
  {
    PrefixComesFirst(nodes, PagePrefix(page));
  }

  /** Once the first page has loaded, the transcript is not blank, so it can be
      saved. */
  lemma {:induction false} PagedTranscriptNotBlank(site: map<string, Page>, url: string, k: nat)
    requires k >= 1 && PageUrl(url, 1) in site
    ensures !IsBlank(PagedUpTo(site, url, k).transcript)
  {
    var s := PagedUpTo(site, url, k).transcript;
    assert s[1] == '=' by {
      PagedFirstLabel(site, url, k);
      assert s[1] == s[..|PagePrefix(1)|][1];
    }
    NotBlankAt(s, 1);
  }

  /** The transcript of a paginated run whose first page loaded opens with the
      label of page 1. */
  lemma {:induction false} PagedFirstLabel(site: map<string, Page>, url: string, k: nat)
    requires k >= 1 && PageUrl(url, 1) in site
    ensures var s := PagedUpTo(site, url, k).transcript;
      |s| >= |PagePrefix(1)| && s[..|PagePrefix(1)|] == PagePrefix(1)
  {
    if k == 1 {
      PageBlockLabelled(site[PageUrl(url, 1)].dom, 1);
    } else {
      PagedFirstLabel(site, url, k - 1);
    }
  }

  /** A page count that is not an integer or is below 1 navigates nowhere and
      appends nothing. */
  lemma InvalidPagesDoNothing(site: map<string, Page>, url: string, pages: Option<int>)
    requires !ValidPages(pages)
    ensures MultiPage(site, url, pages) == NoRun
  {
  }

  /** Three pages of `https://example.com` that all load: three visits in order,
      three blocks labelled `=== PAGE 1 ===`, `=== PAGE 2 ===`, `=== PAGE 3 ===`. */
  lemma ExampleThreePageRun(site: map<string, Page>)
    requires AllLoaded(site, "https://example.com", 3)
    ensures var t := MultiPage(site, "https://example.com", Some(3));
      !t.raised &&
      t.visits == ["https://example.com?page=1", "https://example.com?page=2", "https://example.com?page=3"] &&
      t.transcript == PageBlocks(site, "https://example.com", 3)
  {
    PagedAllLoaded(site, "https://example.com", 3);
    ExampleThreePages();
  }

  /** A failure on page 2 of 3 stops the run: page 3 is never requested and only
      the block of page 1 is kept. */
  lemma ExampleFailureOnSecondPage(site: map<string, Page>, url: string)
    requires PageUrl(url, 1) in site && PageUrl(url, 2) !in site
    ensures var t := MultiPage(site, url, Some(3));
      t.raised && t.visits == [PageUrl(url, 1), PageUrl(url, 2)] &&
      t.transcript == Block(site[PageUrl(url, 1)].dom, PagePrefix(1))
  {
    PagedFirstFailure(site, url, 3, 2);
  }

  /** The scroll strategy ends with exactly one extraction, labelled as scrolled
      content, whether scrolling stopped early or ran out. */
  lemma ScrollExtractsOnce(site: map<string, Page>, url: string, scrolls: Option<int>, wait: Option<real>)
    requires ValidScroll(scrolls, wait) && url in site
    ensures var t := InfiniteScroll(site, url, scrolls, wait);
      t.visits == [url] && !t.raised &&
      1 <= t.scrolls <= scrolls.value &&
      t.transcript[..|ScrollPrefix|] == ScrollPrefix
  {
    PrefixComesFirst(site[url].dom, ScrollPrefix);
  }

  /** A single page with nothing to extract leaves a transcript of one newline,
      which counts as blank: nothing can be saved. */
  lemma EmptySinglePageBlank(site: map<string, Page>, url: string)
    requires url in site
    requires forall i :: 0 <= i < |site[url].dom| ==> Line(site[url].dom[i]) == None
    ensures SinglePage(site, url).transcript == "\n"
    ensures IsBlank(SinglePage(site, url).transcript)
  {
    EmptyPageEmptyBlock(site[url].dom);
    BlankIffAllSpace("\n");
  }
}
