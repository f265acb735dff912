# Advanced Web Scraper: a Dafny model of its text-producing core

The Advanced Web Scraper is a desktop tool. It drives a headless browser,
extracts headings, paragraphs and links from the rendered pages, and
accumulates them in a transcript that the user can save. It has three
strategies: a single page, a paginated run over `?page=1..n`, and an
infinite-scroll run that scrolls until the page stops growing.

This project models the part of `AdvancedWebScraper` that decides what text is
produced. The browser, the HTML parser and the GUI are inputs:

- **Content** (`content.dfy`) is the extraction formatter. The parsed, cleaned
  page is a list of element nodes in document order, each with its stripped
  text. Only `h1`–`h3`, `p` and `a` are selected. A node with empty text is
  skipped. A heading becomes `#`×level, a space and the text. A paragraph
  becomes newline, text, newline. An anchor becomes `[text](href)`, with
  `None` when the href is missing. A non-empty prefix comes first, and the
  pieces are joined by single newlines.
- **Pagination** (`pagination.dfy`) builds the page addresses. The base is the
  part before the first `?`. The query is only the piece between the first and
  a second `?`. `page=n` is added with `&`, or with `?` when the query is empty.
- **Scrolling** (`scrolling.dfy`) holds the stopping rule. Given the observed
  document heights, the loop stops at the first scroll after which the height
  did not change, or after the allowed number of iterations.
- **Browser** (`browser.dfy`) is a stand-in for the browser session. What each
  address loads (its nodes and its successive heights) is an input map. An
  address missing from the map is a failed navigation.
- **Strategies** (`strategies.dfy`) describes each strategy's run as a value:
  the addresses visited, the scroll actions, the transcript and whether it
  ended in an exception. The lemmas about runs live here.
- **Scraper** (`scraper.dfy`) is the class `AdvancedWebScraper` with its
  transcript, browser handle, status and save-button state. Its methods follow
  the source's loops and are proved to produce the runs above. Each run
  resets the transcript to the empty string. Each extraction appends its block
  and a newline. The browser is always released at the end of a run. Saving
  is refused when the transcript is blank.
- **Text** (`text.dfy`) holds the Python string operations the scraper uses:
  strip, split on one character, join, decimal `str(n)` and character
  repetition.

Behaviour of the code worth noting:

- Only `h1`, `h2` and `h3` headings are extracted. `h4`–`h6` produce nothing.
- The page labels are `"\n=== PAGE n ===\n"` and `"\n=== SCROLLED CONTENT ===\n"`,
  with surrounding newlines.
- The query kept for pagination is only the piece between the first and the
  second `?`, not everything after the first `?`.
- Invalid page or scroll settings do not abort the run. The strategy shows an
  error and returns. The run is then marked completed and saving is enabled,
  with zero navigations and an empty transcript.
- The only URL check is that the stripped entry is not empty.

## Model

| member | source | states |
|---|---|---|
| Text.TrimLeft | WebScraper/scraper.py:205 | the result is the suffix of the input after its leading whitespace; every dropped character is whitespace and the result does not start with whitespace |
| Text.TrimRight | WebScraper/scraper.py:205 | the result is the prefix of the input before its trailing whitespace; every dropped character is whitespace and the result does not end with whitespace |
| Text.BlankIffAllSpace | WebScraper/scraper.py:346 | a string strips to nothing exactly when every character is whitespace |
| Text.NotBlankAt | WebScraper/scraper.py:346 | a string with a non-whitespace character somewhere does not strip to nothing |
| Text.Split | WebScraper/scraper.py:259-260 | splitting on `?` gives at least one piece, exactly one when there is no `?`; no piece contains `?`; joining the pieces with `?` gives back the input |
| Text.SplitAtFirst | WebScraper/scraper.py:259-260 | the first piece is everything before the first separator; the other pieces are the split of what follows it |
| Text.SplitNoSeparator | WebScraper/scraper.py:259-260 | a string without the separator splits into itself alone |
| Text.JoinAppend | WebScraper/scraper.py:337 | joining two non-empty lists of lines one after the other puts exactly one separator between them |
| Text.Repeat | WebScraper/scraper.py:330 | `'#' * n` has length n and every character is `#` |
| Text.NatToString | WebScraper/scraper.py:268-275 | the decimal rendering of a page number is non-empty, all digits, and has no leading zero unless the number is 0 |
| Text.ParseNatToString | WebScraper/scraper.py:268-275 | reading the decimal rendering back gives the number (round trip) |
| Text.NatToStringInjective | WebScraper/scraper.py:268-275 | different numbers have different decimal renderings |
| Content.EmptyTextSkipped | WebScraper/scraper.py:325-327 | a node whose stripped text is empty produces no line, even an anchor with an href |
| Content.HeadingHashes | WebScraper/scraper.py:328-330 | a heading of level 1 to 3 produces exactly `level` `#` characters, one space, then the text |
| Content.DeepHeadingsDropped | WebScraper/scraper.py:324 | headings of level 4 to 6 are not selected and produce nothing |
| Content.ParagraphBetweenBlankLines | WebScraper/scraper.py:331-332 | a paragraph line, split at newlines, is an empty line, the text, and an empty line |
| Content.AnchorLink | WebScraper/scraper.py:333-335 | an anchor with text produces `[text](` then the href, or `None` when absent, then `)` |
| Content.LinesNonEmpty | WebScraper/scraper.py:328-335 | every produced line is non-empty |
| Content.NoLinesIffNothingQualifies | WebScraper/scraper.py:324-327 | the nodes produce no line exactly when none is a selected tag with non-empty text |
| Content.LinesStep | WebScraper/scraper.py:324-336 | handling one more node adds exactly that node's line, if any, after the lines so far |
| Content.LinesAppend | WebScraper/scraper.py:324-336 | the lines of two runs of nodes are the lines of the first followed by those of the second (document order) |
| Content.EmptyPageEmptyBlock | WebScraper/scraper.py:321-337 | with an empty prefix and no qualifying node, the block is the empty string |
| Content.PrefixComesFirst | WebScraper/scraper.py:321-337 | a non-empty prefix is the first joined element, followed by a newline and the lines when there are any |
| Content.ExtractAppend | WebScraper/scraper.py:324-337 | extracting two runs of nodes gives their blocks joined by a single newline, in node order |
| Pagination.PageUrls | WebScraper/scraper.py:262-270 | the addresses visited are those of pages 1 to n, one per page, in increasing page order |
| Pagination.PageUrlWithoutQuery | WebScraper/scraper.py:259-270 | with no `?` in the URL, page n is fetched at the URL followed by `?page=n` |
| Pagination.PageUrlWithQuery | WebScraper/scraper.py:259-270 | with a `?`, page n is fetched at the part before the first `?`, `?`, the piece up to a second `?` and `&page=n`, or at the base and `?page=n` when that piece is empty; anything after a second `?` is dropped |
| Pagination.PageUrlInjective | WebScraper/scraper.py:262-270 | different page numbers are fetched from different addresses |
| Pagination.ExampleThreePages | WebScraper/scraper.py:262-270 | three pages of `https://example.com` are fetched at `?page=1`, `?page=2`, `?page=3` in that order |
| Scrolling.FirstRepeatFrom | WebScraper/scraper.py:296-309 | finds the first scroll, from a given one on, after which the height equals the previous height, given that none before it does |
| Scrolling.FirstRepeat | WebScraper/scraper.py:296-309 | the first scroll after which the height did not change: the heights before it all changed |
| Scrolling.StopsAtFirstRepeat | WebScraper/scraper.py:306-308 | when scroll k is the first without growth and k is within the allowed iterations, exactly k scrolls happen |
| Scrolling.GrowingPageRunsOut | WebScraper/scraper.py:296-309 | when every allowed scroll brings growth, the full number of scrolls happens |
| Scrolling.ExampleEarlyStop | WebScraper/scraper.py:296-308 | heights 1000, 1000 with five iterations allowed give one scroll |
| Browser.Driver.constructor | WebScraper/scraper.py:194-197 | a new browser session is open and has visited nothing |
| Browser.Driver.Get | WebScraper/scraper.py:272-273 | navigation records the address; it succeeds exactly when the address loads, and then shows that page's nodes and heights |
| Browser.Driver.ScrollHeight | WebScraper/scraper.py:305 | the height measured after k scrolls is the k-th observed height |
| Browser.Driver.ScrollToBottom | WebScraper/scraper.py:301 | one more scroll action is counted |
| Browser.Driver.Quit | WebScraper/scraper.py:236 | the session is closed |
| Strategies.PagedUpTo | WebScraper/scraper.py:262-275 | the paginated loop never scrolls and visits at most one address per page handled |
| Strategies.PagedRaisedSticks | WebScraper/scraper.py:272-273 | after a page fails, later pages change nothing: the exception ends the loop |
| Strategies.PagedAllLoaded | WebScraper/scraper.py:262-275 | when pages 1 to k all load, the run visits their addresses in order, appends one labelled block per page in page order with no deduplication, and raises nothing |
| Strategies.PagedFirstFailure | WebScraper/scraper.py:262-275 | when page j is the first that fails, the run visits pages 1 to j only, keeps the blocks of pages 1 to j-1, and raises |
| Strategies.PageBlockLabelled | WebScraper/scraper.py:275 | each page's block starts with `"\n=== PAGE n ===\n"` |
| Strategies.PagedFirstLabel | WebScraper/scraper.py:275-338 | once page 1 has loaded, the transcript starts with page 1's label `"\n=== PAGE 1 ===\n"` |
| Strategies.PagedTranscriptNotBlank | WebScraper/scraper.py:275-346 | once page 1 has loaded, the transcript is not blank, so it can be saved |
| Strategies.InvalidPagesDoNothing | WebScraper/scraper.py:251-257 | a page count that is not an integer or is below 1 means no navigation, nothing appended, no exception |
| Strategies.ExampleThreePageRun | WebScraper/scraper.py:259-275 | three loading pages of `https://example.com` give three visits in order and the three labelled blocks |
| Strategies.ExampleFailureOnSecondPage | WebScraper/scraper.py:262-275 | a failure on page 2 of 3 visits pages 1 and 2 only and keeps only page 1's block |
| Strategies.ScrollExtractsOnce | WebScraper/scraper.py:291-311 | with valid settings and a loading page, one visit, between 1 and the allowed number of scrolls, and a transcript that is one block starting with the scrolled-content label |
| Strategies.EmptySinglePageBlank | WebScraper/scraper.py:239-346 | a single page with nothing to extract leaves a transcript of one newline, which is blank |
| Scraper.AdvancedWebScraper.constructor | WebScraper/scraper.py:20-21 | a new scraper has no browser, an empty transcript, status Ready and saving disabled |
| Scraper.AdvancedWebScraper.ProcessPageContent | WebScraper/scraper.py:313-338 | the loop over the nodes builds the output lines; the transcript grows by exactly the block for the current page and a newline |
| Scraper.AdvancedWebScraper.ScrapeSinglePage | WebScraper/scraper.py:239-247 | one navigation; on success the block with no prefix is appended; on failure nothing is appended and the exception is reported |
| Scraper.AdvancedWebScraper.ScrapeMultiplePages | WebScraper/scraper.py:249-278 | the loop over pages produces exactly the paginated run: visits, transcript and exception as in the Strategies lemmas; invalid counts change nothing |
| Scraper.AdvancedWebScraper.ScrapeInfiniteScroll | WebScraper/scraper.py:280-311 | the scroll loop performs min(iterations, first scroll without growth) scroll actions, then one extraction; the last recorded height is the height after the last scroll; invalid settings change nothing |
| Scraper.AdvancedWebScraper.InitializeDriver | WebScraper/scraper.py:183-201 | a leftover session is closed; on a successful launch a fresh, open session that has visited nothing is installed; on failure the handle is unchanged |
| Scraper.AdvancedWebScraper.StartScraping | WebScraper/scraper.py:203-237 | a blank URL entry changes nothing; a failed launch changes nothing else; otherwise the transcript is reset and becomes exactly the chosen strategy's transcript, status is Failed or Completed as the strategy raised or not, saving is enabled only on completion, and the session used is closed and the handle is cleared |
| Scraper.AdvancedWebScraper.SaveResults | WebScraper/scraper.py:344-362 | nothing is saved exactly when the transcript is all whitespace; otherwise a cancelled dialog saves nothing, and a successful write stores the transcript itself at the chosen path |

## Left out

- The Tk GUI is not modelled: widgets, theming, dark mode, the text widget, intermediate status texts and the window refresh. They have no statable behaviour beyond the status and save-button state that are modelled.
- Browser creation, navigation, the 10-second wait, the height and scroll scripts and the sleep are foreign calls. The model takes their results as inputs (an address-to-page map, height observations) and leaves out timing.
- HTML parsing, the removal of script/style/noscript/meta/link/svg elements and stripped-text computation are foreign library calls. The model starts from the resulting nodes in document order.
- The page loaded for an address is fixed for the whole run. Scrolling changes only the measured height, not the nodes the final extraction reads. Once the given height observations run out, the height stays at the last one, or at 0 when none were given.
- Parsing the entry fields with `int` and `float` is a builtin. Each setting is taken as already parsed, or absent when parsing raised.
- Scraper.AdvancedWebScraper.ScrapeInfiniteScroll: the wait is a real number, so the NaN and infinite values that `float` accepts are not modelled. A NaN passes the check, and the sleep then raises.
- Exceptions other than a failed navigation are not modelled: a failure inside extraction, a browser crash while scrolling, or a failure of quit.
- The file dialog and the UTF-8 write are I/O. SaveResults takes the chosen path and whether the write succeeds as inputs.
- autosortandgraph.py (spreadsheet sorting and charting) is not part of this model. It is a wrapper over dataframe and plotting library calls.
