/** The browser the scraper drives, reduced to what the scraper observes of it.
    What each address would load is an input: a page's element nodes and the
    successive document heights it reports while being scrolled. */
module Browser {
  import opened Content
  import opened Scrolling

  /** What loading one address produces: the page's nodes in document order
      and the document heights observed before and after each scroll action. */
  datatype Page = Page(dom: seq<Node>, heights: seq<int>)

  /** A browser session. An address missing from `site` fails to load (the
      navigation error or the wait for the page body timing out). */
  class Driver {
    const site: map<string, Page>
    var visits: seq<string>    // every address passed to `get`, in order
    var dom: seq<Node>         // the nodes of the page currently shown
    var heights: seq<int>      // the height observations of the page currently shown
    var scrolled: nat          // scroll actions performed on the page currently shown
    var open: bool             // false once the session has been quit

    constructor (site: map<string, Page>)
      ensures this.site == site && open
      ensures visits == [] && dom == [] && heights == [] && scrolled == 0
    {
      this.site := site;
      visits, dom, heights, scrolled, open := [], [], [], 0, true;
    }

    /** Navigates to `url` and waits for the page body; fails when the page does not load. */
    method Get(url: string) returns (loaded: bool)
      requires open
      modifies this
      ensures open && visits == old(visits) + [url] && scrolled == 0
      ensures loaded <==> url in site
      ensures loaded ==> dom == site[url].dom && heights == site[url].heights
      ensures !loaded ==> dom == old(dom) && heights == old(heights)
    {
      visits := visits + [url];
      scrolled := 0;
      loaded := url in site;
      if loaded {
        dom, heights := site[url].dom, site[url].heights;
      }
    }

    /** Measures the document height of the current page. */
    method ScrollHeight() returns (h: int)
      requires open
      ensures h == HeightAt(heights, scrolled)
    {
      h := HeightAt(heights, scrolled);
    }

    /** Scrolls the current page to its bottom. */
    method ScrollToBottom()
      requires open
      modifies this`scrolled
      ensures scrolled == old(scrolled) + 1
    {
      scrolled := scrolled + 1;
    }

    /** Releases the browser. */
    method Quit()
      modifies this`open
      ensures !open
    {
      open := false;
    }
  }
}
