/** The page addresses and block labels of the paginated strategy
    (`scrape_multiple_pages`). */
module Pagination {
  import opened Text

  /** The address up to its first `?`, or the whole address when it has none. */
  function BaseUrl(url: string): string {
    if '?' in url then Split(url, '?')[0] else url
  }

  /** The second piece of the address split at `?`: only what lies between the
      first and a second `?`, so whatever follows a second `?` is lost; empty
      when the address has no `?`. */
  function Query(url: string): string {
    if '?' in url then Split(url, '?')[1] else ""
  }

  /** The address fetched for page `page`: `page=<page>` added to the query with
      `&`, or as a new query with `?` when the query is empty. */
  function PageUrl(url: string, page: nat): string {
    if Query(url) != "" then BaseUrl(url) + "?" + Query(url) + "&page=" + NatToString(page)
    else BaseUrl(url) + "?page=" + NatToString(page)
  }

  /** The label that opens the block of page `page`. */
  function PagePrefix(page: nat): string {
    "\n=== PAGE " + NatToString(page) + " ===\n"
  }

  /** The addresses of pages 1 to `n`, in the order the loop visits them. */
  function PageUrls(url: string, n: nat): (urls: seq<string>)
    ensures |urls| == n
    ensures forall i :: 0 <= i < n ==> urls[i] == PageUrl(url, i + 1)
  {
    if n == 0 then [] else PageUrls(url, n - 1) + [PageUrl(url, n)]
  }

  /** Without a `?`, page `page` is the address itself followed by `?page=<page>`. */
  lemma PageUrlWithoutQuery(url: string, page: nat)
    requires '?' !in url
    ensures PageUrl(url, page) == url + "?page=" + NatToString(page)
  {
  }

  /** With a `?`, the page address keeps what precedes the first `?` and the
      piece up to a possible second `?`, drops the rest, and adds `&page=<page>`
      (or `?page=<page>` when that piece is empty). */
  lemma PageUrlWithQuery(base: string, query: string, rest: string, page: nat)
    requires '?' !in base && '?' !in query
    requires rest == "" || rest[0] == '?'
    ensures PageUrl(base + "?" + query + rest, page) ==
      if query != "" then base + "?" + query + "&page=" + NatToString(page)
      else base + "?page=" + NatToString(page)
  {
    var url := base + "?" + query + rest;
    assert url == base + ['?'] + (query + rest);
    SplitAtFirst(base, '?', query + rest);
    if rest == "" {
      assert query + rest == query;
      SplitNoSeparator(query, '?');
    } else {
      assert query + rest == query + ['?'] + rest[1..];
      SplitAtFirst(query, '?', rest[1..]);
    }
    assert '?' in url by { assert url[|base|] == '?'; }
    assert BaseUrl(url) == base && Query(url) == query;
  }

  /** Different pages are fetched from different addresses. */
  lemma PageUrlInjective(url: string, n: nat, m: nat)
    requires PageUrl(url, n) == PageUrl(url, m)
    ensures n == m
  {
    var head := if Query(url) != "" then BaseUrl(url) + "?" + Query(url) + "&page="
                else BaseUrl(url) + "?page=";
    assert PageUrl(url, n) == head + NatToString(n);
    assert PageUrl(url, m) == head + NatToString(m);
    assert NatToString(n) == PageUrl(url, n)[|head|..];
    assert NatToString(m) == PageUrl(url, m)[|head|..];
    NatToStringInjective(n, m);
  }

  /** The three pages of `https://example.com` are fetched at `?page=1`, `?page=2`
      and `?page=3`, in that order. */
  lemma ExampleThreePages()
    ensures PageUrls("https://example.com", 3) ==
      ["https://example.com?page=1", "https://example.com?page=2", "https://example.com?page=3"]
  {
    var url := "https://example.com";
    assert NatToString(1) == "1" && NatToString(2) == "2" && NatToString(3) == "3";
    PageUrlWithoutQuery(url, 1);
    PageUrlWithoutQuery(url, 2);
    PageUrlWithoutQuery(url, 3);
    var urls := PageUrls(url, 3);
    assert urls[0] == "https://example.com?page=1";
    assert urls[1] == "https://example.com?page=2";
    assert urls[2] == "https://example.com?page=3";
  }
}
