/** The scraper object: its transcript, its browser session, the terminal status
    it shows and whether saving is enabled. GUI widgets are not modelled. */
module Scraper {
  import opened Wrappers
  import opened Text
  import opened Content
  import opened Pagination
  import opened Scrolling
  import opened Browser
  import opened Strategies

  /** The status-bar text: the initial one, the one shown while a run starts,
      and the two a run ends with. */
  datatype Status = Ready | Initializing | Completed | Failed

  /** What a request to save the transcript leads to. */
  datatype SaveOutcome =
    | NothingToSave                            // warning: no content to save
    | Cancelled                                // the file dialog returned no path
    | Saved(path: string, content: string)     // the transcript written to `path`
    | WriteFailed(path: string)                // the write raised; the error is shown

  class AdvancedWebScraper {
    var driver: Driver?
    var scrapedData: string
    var status: Status
    var saveEnabled: bool

    constructor ()
      ensures driver == null && scrapedData == "" && status == Ready && !saveEnabled
    {
      driver, scrapedData, status, saveEnabled := null, "", Ready, false;
    }

    /** `process_page_content(prefix)`: formats the nodes of the current page
        and appends the block and a newline to the transcript. */
    method ProcessPageContent(prefix: string)
      requires driver != null
      modifies this`scrapedData
      ensures scrapedData == old(scrapedData) + Block(driver.dom, prefix)
    {
      var nodes := driver.dom;
      var outputLines := if prefix != "" then [prefix] else [];
      for i := 0 to |nodes|
        invariant outputLines == PrefixLines(prefix) + Lines(nodes[..i])
        invariant scrapedData == old(scrapedData)
      {
        var n := nodes[i];
        LinesStep(nodes, i);
        ConcatAssoc(PrefixLines(prefix), Lines(nodes[..i]), LineOf(n));
        if Selected(n) && n.text != "" {
          outputLines := outputLines + [Format(n)];
        }
      }
      assert nodes[..|nodes|] == nodes;
      var structuredText := Join(outputLines, "\n");
      assert structuredText + "\n" == Block(nodes, prefix);
      ConcatAssoc(scrapedData, structuredText, "\n");
      scrapedData := scrapedData + structuredText + "\n";
    }

    /** `scrape_single_page(url)`; `raised` is true when navigation failed. */
    method ScrapeSinglePage(url: string) returns (raised: bool)
      requires driver != null && driver.open
      modifies this`scrapedData, driver
      ensures driver.open && driver.scrolled == 0
      ensures var t := SinglePage(driver.site, url);
        driver.visits == old(driver.visits) + t.visits &&
        scrapedData == old(scrapedData) + t.transcript && raised == t.raised
    {
      var loaded := driver.Get(url);
      if !loaded {
        return true;
      }
      ProcessPageContent("");
      raised := false;
    }

    /** `scrape_multiple_pages(url)`, with the page count as read from its entry.
        An invalid count returns before any navigation. */
    method ScrapeMultiplePages(url: string, pages: Option<int>) returns (raised: bool)
      requires driver != null && driver.open
      modifies this`scrapedData, driver
      ensures driver.open
      ensures var t := MultiPage(driver.site, url, pages);
        driver.visits == old(driver.visits) + t.visits &&
        driver.scrolled == (if t.visits == [] then old(driver.scrolled) else 0) &&
        scrapedData == old(scrapedData) + t.transcript && raised == t.raised
    {
      if pages.None? || pages.value < 1 {
        return false;
      }
      var n := pages.value;
      for page := 1 to n + 1
        invariant driver.open
        invariant var t := PagedUpTo(driver.site, url, page - 1);
          !t.raised &&
          driver.visits == old(driver.visits) + t.visits &&
          driver.scrolled == (if t.visits == [] then old(driver.scrolled) else 0) &&
          scrapedData == old(scrapedData) + t.transcript
      {
        ghost var before := PagedUpTo(driver.site, url, page - 1);
        var pageUrl := PageUrl(url, page);
        var loaded := driver.Get(pageUrl);
        PagedStep(driver.site, url, page);
        ConcatAssoc(old(driver.visits), before.visits, [pageUrl]);
        if !loaded {
          PagedRaisedSticks(driver.site, url, page, n);
          return true;
        }
        ProcessPageContent(PagePrefix(page));
        ConcatAssoc(old(scrapedData), before.transcript, Block(driver.dom, PagePrefix(page)));
      }
      raised := false;
    }

    /** `scrape_infinite_scroll(url)`, with the iteration count and the wait as
        read from their entries. Invalid settings return before any navigation.
        `lastHeight` is the last height the loop recorded. */
    method ScrapeInfiniteScroll(url: string, scrolls: Option<int>, wait: Option<real>)
      returns (raised: bool, lastHeight: int)
      requires driver != null && driver.open
      modifies this`scrapedData, driver
      ensures driver.open
      ensures var t := InfiniteScroll(driver.site, url, scrolls, wait);
        driver.visits == old(driver.visits) + t.visits &&
        driver.scrolled == (if t.visits == [] then old(driver.scrolled) else t.scrolls) &&
        scrapedData == old(scrapedData) + t.transcript && raised == t.raised &&
        (t.visits != [] && !raised ==> lastHeight == HeightAt(driver.site[url].heights, t.scrolls))
    {
      lastHeight := 0;
      if scrolls.None? || wait.None? || scrolls.value < 1 || wait.value < 0.5 {
        return false, lastHeight;
      }
      var loaded := driver.Get(url);
      if !loaded {
        return true, lastHeight;
      }
      ghost var heights := driver.heights;
      var n := scrolls.value;
      lastHeight := driver.ScrollHeight();
      var i := 1;
      while i <= n
        invariant 1 <= i <= n + 1
        invariant driver.open && driver.heights == heights && driver.dom == driver.site[url].dom
        invariant driver.visits == old(driver.visits) + [url]
        invariant driver.scrolled == i - 1 && lastHeight == HeightAt(heights, i - 1)
        invariant forall j :: 1 <= j < i ==> !NoGrowth(heights, j)
        invariant scrapedData == old(scrapedData)
      {
        driver.ScrollToBottom();
        var newHeight := driver.ScrollHeight();
        if newHeight == lastHeight {
          StopsAtFirstRepeat(heights, n, i);
          break;
        }
        lastHeight := newHeight;
        i := i + 1;
      }
      if i > n {
        GrowingPageRunsOut(heights, n);
      }
      ProcessPageContent(ScrollPrefix);
      raised := false;
    }

    /** `initialize_driver`: quits a leftover session, then starts a new one;
        `launches` says whether the browser starts. */
    method InitializeDriver(site: map<string, Page>, launches: bool) returns (ok: bool)
      modifies this`driver, driver
      ensures old(driver) != null ==> !old(driver).open
      ensures ok == launches
      ensures ok ==> driver != null && fresh(driver) && driver.site == site && driver.open &&
                     driver.visits == [] && driver.scrolled == 0
      ensures !ok ==> driver == old(driver)
    {
      if driver != null {
        driver.Quit();
      }
      if !launches {
        return false;
      }
      driver := new Driver(site);
      ok := true;
    }

    /** `start_scraping`: strips the URL entry, starts a browser, resets the
        transcript, runs the chosen strategy, sets the terminal status and the
        save button, and in every case releases the browser. */
    method StartScraping(entry: string, mode: Mode, settings: Settings, site: map<string, Page>, launches: bool)
      returns (used: Driver?)
      modifies this, driver
      ensures Strip(entry) == "" ==>
        used == null && driver == old(driver) && scrapedData == old(scrapedData) &&
        status == old(status) && saveEnabled == old(saveEnabled) &&
        (driver != null ==> driver.open == old(driver.open))
      ensures Strip(entry) != "" && old(driver) != null ==> !old(driver).open
      ensures Strip(entry) != "" && !launches ==>
        used == null && driver == old(driver) && scrapedData == old(scrapedData) &&
        status == old(status) && saveEnabled == old(saveEnabled)
      ensures Strip(entry) != "" && launches ==>
        used != null && fresh(used) && used.site == site && !used.open && driver == null &&
        var t := Run(site, Strip(entry), mode, settings);
        used.visits == t.visits && used.scrolled == t.scrolls &&
        scrapedData == t.transcript &&
        status == (if t.raised then Failed else Completed) && saveEnabled == !t.raised
    {
      var url := Strip(entry);
      if url == "" {
        return null;
      }
      var ok := InitializeDriver(site, launches);
      if !ok {
        return null;
      }
      used := driver;
      scrapedData := "";
      saveEnabled := false;
      status := Initializing;
      var raised: bool;
      match mode {
        case Single =>
          raised := ScrapeSinglePage(url);
        case Multi =>
          raised := ScrapeMultiplePages(url, settings.pages);
        case Scroll =>
          var lastHeight;
          raised, lastHeight := ScrapeInfiniteScroll(url, settings.scrolls, settings.wait);
      }
      if raised {
        status := Failed;
      } else {
        status := Completed;
        saveEnabled := true;
      }
      if driver != null {
        driver.Quit();
        driver := null;
      }
    }

    /** `save_results`: refuses a blank transcript, otherwise writes it to the
        path the file dialog returned (`""` when the dialog was cancelled);
        `writeSucceeds` says whether the file write succeeds. */
    method SaveResults(dialogPath: string, writeSucceeds: bool) returns (outcome: SaveOutcome)
      ensures outcome == NothingToSave <==> forall i :: 0 <= i < |scrapedData| ==> IsSpace(scrapedData[i])
      ensures outcome == Cancelled <==> !IsBlank(scrapedData) && dialogPath == ""
      ensures outcome.Saved? <==> !IsBlank(scrapedData) && dialogPath != "" && writeSucceeds
      ensures outcome.Saved? ==> outcome.path == dialogPath && outcome.content == scrapedData
      ensures outcome.WriteFailed? ==> outcome.path == dialogPath
    {
      BlankIffAllSpace(scrapedData);
      if IsBlank(scrapedData) {
        return NothingToSave;
      }
      if dialogPath == "" {
        return Cancelled;
      }
      if writeSucceeds {
        outcome := Saved(dialogPath, scrapedData);
      } else {
        outcome := WriteFailed(dialogPath);
      }
    }
  }
}
