/** `get_seasonal_anime` and `get_watching_list`: the two retrievals from the
    progress-tracking API. The seasonal catalog follows the `paging.next`
    cursor page after page; the watch list is a single request. */
module Catalog {
  import opened Wrappers
  import opened AuthFetch
  import Season
  import Text

  /** One page of a listing: its `data` array and its optional `paging.next`. */
  datatype Page<T> = Page(data: seq<T>, next: Option<string>)

  /** `while url:` — a cursor is followed only when present and non-empty. */
  predicate HasCursor(url: Option<string>) {
    url.Some? && url.value != ""
  }

  function CatalogUrl(season: Season.Season, year: int): string {
    "https://api.myanimelist.net/v2/anime/season/" + Text.Decimal(year) + "/" + season.Name()
  }

  function WatchListUrl(username: string): string {
    "https://api.myanimelist.net/v2/users/" + username + "/animelist"
  }

  /** Every page's `data`, in page order. */
  function Flatten<T>(pages: seq<Page<T>>): seq<T> {
    if pages == [] then [] else pages[0].data + Flatten(pages[1..])
  }

  /** The outcome of following the cursor: the accumulated items or the first
      error, the pages decoded on the way, every request issued, and the
      session's headers and refresh count at the end. */
  datatype Walk<T> = Walk(
    result: Result<seq<T>, FetchError>,
    pages: seq<Page<T>>,
    sent: seq<Request>,
    headers: Headers,
    refreshes: nat)

  /** A walk preceded by pages already fetched, with their items and requests. */
  function Prepend<T>(items: seq<T>, pages: seq<Page<T>>, sent: seq<Request>,
                      w: Option<Walk<T>>): Option<Walk<T>>
  {
    match w
    case None => None
    case Some(w) =>
      var result := if w.result.Success? then Success(items + w.result.value) else w.result;
      Some(Walk(result, pages + w.pages, sent + w.sent, w.headers, w.refreshes))
  }

  /** The pagination loop from cursor `url`, for at most `fuel` pages; `None`
      when the cursor chain is longer than that. */
  function WalkPages<T>(server: Request -> Response<Page<T>>, renew: nat -> Option<string>,
                        url: Option<string>, headers: Headers, refreshes: nat, fuel: nat)
    : (w: Option<Walk<T>>)
    // no more pages than the bound allows; the chain is cut only when it is longer
    ensures w.Some? ==> |w.value.pages| <= fuel
    ensures w.None? ==> HasCursor(url)
    // a request goes out exactly when the starting cursor is present
    ensures w.Some? ==> (w.value.sent == [] <==> !HasCursor(url))
    // the refresh count never goes down
    ensures w.Some? ==> w.value.refreshes >= refreshes
    decreases fuel
  {
    if !HasCursor(url) then Some(Walk(Success([]), [], [], headers, refreshes))
    else if fuel == 0 then None
    else
      var x := SafeGetSpec(server, renew(refreshes), url.value, headers);
      var count := refreshes + (if x.refreshed then 1 else 0);
      match x.result
      case Failure(e) => Some(Walk(Failure(e), [], x.sent, x.headers, count))
      case Success(page) =>
        Prepend(page.data, [page], x.sent,
                WalkPages(server, renew, page.next, x.headers, count, fuel - 1))
  }

  lemma PrependNothing<T>(w: Option<Walk<T>>)
    ensures Prepend([], [], [], w) == w
  {
    if w.Some? {
      assert [] + w.value.pages == w.value.pages;
      assert [] + w.value.sent == w.value.sent;
      if w.value.result.Success? {
        assert [] + w.value.result.value == w.value.result.value;
      }
    }
  }

  lemma PrependTwice<T>(a: seq<T>, p: seq<Page<T>>, s: seq<Request>,
                        b: seq<T>, q: seq<Page<T>>, t: seq<Request>, w: Option<Walk<T>>)
    ensures Prepend(a, p, s, Prepend(b, q, t, w)) == Prepend(a + b, p + q, s + t, w)
  {
    if w.Some? {
      assert (p + q) + w.value.pages == p + (q + w.value.pages);
      assert (s + t) + w.value.sent == s + (t + w.value.sent);
      if w.value.result.Success? {
        assert (a + b) + w.value.result.value == a + (b + w.value.result.value);
      }
    }
  }

  /** One iteration of the pagination loop, seen from the whole walk: the
      response to the cursor's request either ends the walk with its error,
      or moves the page's items, the page and its requests into the prefix. */
  lemma WalkAdvance<T>(server: Request -> Response<Page<T>>, renew: nat -> Option<string>,
                       whole: Option<Walk<T>>, items: seq<T>, pages: seq<Page<T>>,
                       sent: seq<Request>, url: string, headers: Headers, refreshes: nat,
                       fuel: nat, x: Exchange<Page<T>>)
    requires url != "" && whole.Some?
    requires whole == Prepend(items, pages, sent, WalkPages(server, renew, Some(url), headers, refreshes, fuel))
    requires x == SafeGetSpec(server, renew(refreshes), url, headers)
    ensures fuel > 0
    ensures x.result.Failure? ==>
      whole.value == Walk(Failure(x.result.error), pages, sent + x.sent, x.headers,
                          refreshes + (if x.refreshed then 1 else 0))
    ensures x.result.Success? ==>
      whole == Prepend(items + x.result.value.data, pages + [x.result.value], sent + x.sent,
                       WalkPages(server, renew, x.result.value.next, x.headers,
                                 refreshes + (if x.refreshed then 1 else 0), fuel - 1))
  {
    var count := refreshes + (if x.refreshed then 1 else 0);
    if x.result.Failure? {
      assert pages + [] == pages;
    } else {
      var page := x.result.value;
      PrependTwice(items, pages, sent, page.data, [page], x.sent,
                   WalkPages(server, renew, page.next, x.headers, count, fuel - 1));
    }
  }

  /** A completed pagination returns the concatenation of every page's
      `data` in page order; it stopped at the first page without a cursor,
      every earlier page having one; no page at all is fetched only when the
      starting cursor is empty. */
  lemma {:induction false} WalkConcatenatesPages<T>(
    server: Request -> Response<Page<T>>, renew: nat -> Option<string>,
    url: Option<string>, headers: Headers, refreshes: nat, fuel: nat)
    requires WalkPages(server, renew, url, headers, refreshes, fuel).Some?
    requires WalkPages(server, renew, url, headers, refreshes, fuel).value.result.Success?
    ensures var w := WalkPages(server, renew, url, headers, refreshes, fuel).value;
      && w.result.value == Flatten(w.pages)
      && (w.pages == [] <==> !HasCursor(url))
      && (w.pages != [] ==> !HasCursor(w.pages[|w.pages| - 1].next))
      && (forall i :: 0 <= i < |w.pages| - 1 ==> HasCursor(w.pages[i].next))
    decreases fuel
  {
    var w := WalkPages(server, renew, url, headers, refreshes, fuel).value;
    if HasCursor(url) {
      var x := SafeGetSpec(server, renew(refreshes), url.value, headers);
      var count := refreshes + (if x.refreshed then 1 else 0);
      var page := x.result.value;
      var rest := WalkPages(server, renew, page.next, x.headers, count, fuel - 1).value;
      WalkConcatenatesPages(server, renew, page.next, x.headers, count, fuel - 1);
      assert w.pages == [page] + rest.pages;
      assert w.pages[1..] == rest.pages;
      forall i | 0 <= i < |w.pages| - 1
        ensures HasCursor(w.pages[i].next)
      {
        if i == 0 {
          assert rest.pages != [];
        } else {
          assert w.pages[i] == rest.pages[i - 1];
        }
      }
    }
  }

  /** Each page costs one request, or two when the token had to be
      refreshed: the number of requests lies between the number of pages and
      twice that number. */
  lemma {:induction false} WalkRequestCount<T>(
    server: Request -> Response<Page<T>>, renew: nat -> Option<string>,
    url: Option<string>, headers: Headers, refreshes: nat, fuel: nat)
    requires WalkPages(server, renew, url, headers, refreshes, fuel).Some?
    requires WalkPages(server, renew, url, headers, refreshes, fuel).value.result.Success?
    ensures var w := WalkPages(server, renew, url, headers, refreshes, fuel).value;
      |w.pages| <= |w.sent| <= 2 * |w.pages|
    decreases fuel
  {
    if HasCursor(url) {
      var x := SafeGetSpec(server, renew(refreshes), url.value, headers);
      var count := refreshes + (if x.refreshed then 1 else 0);
      WalkRequestCount(server, renew, x.result.value.next, x.headers, count, fuel - 1);
    }
  }

  /** One pass through the body of the pagination loop: the request for
      cursor `url`, seen from the whole walk that the loop is carrying out. */
  method FetchPage<T>(s: Session<Page<T>>, url: string, ghost whole: Option<Walk<T>>,
                      ghost items: seq<T>, ghost pages: seq<Page<T>>, ghost sent: seq<Request>,
                      ghost left: nat, ghost log: seq<Request>)
    returns (data: Result<Page<T>, FetchError>, ghost issued: seq<Request>)
    requires url != "" && whole.Some? && s.sent == log + sent
    requires whole == Prepend(items, pages, sent,
                              WalkPages(s.server, s.renew, Some(url), s.headers, s.refreshes, left))
    modifies s
    ensures left > 0
    ensures s.sent == log + (sent + issued)
    ensures data.Failure? ==>
      whole.value == Walk(Failure(data.error), pages, sent + issued, s.headers, s.refreshes)
    ensures data.Success? ==>
      whole == Prepend(items + data.value.data, pages + [data.value], sent + issued,
                       WalkPages(s.server, s.renew, data.value.next, s.headers, s.refreshes, left - 1))
  {
    ghost var x := SafeGetSpec(s.server, s.renew(s.refreshes), url, s.headers);
    ghost var count := s.refreshes + (if x.refreshed then 1 else 0);
    WalkAdvance(s.server, s.renew, whole, items, pages, sent, url, s.headers, s.refreshes, left, x);
    data := s.SafeGet(url);
    assert data == x.result && s.headers == x.headers && s.refreshes == count;
    issued := x.sent;
    assert s.sent == (log + sent) + issued == log + (sent + issued);
  }

  /** The pagination loop of `get_seasonal_anime`. A cursor chain that does
      not end would make the source loop forever; the ghost `fuel` bounds its
      length. A failure on any page aborts the whole retrieval. */
  method GetSeasonalAnime<T>(s: Session<Page<T>>, season: Season.Season, year: int,
                             ghost fuel: nat)
    returns (r: Result<seq<T>, FetchError>)
    requires WalkPages(s.server, s.renew, Some(CatalogUrl(season, year)), s.headers, s.refreshes, fuel).Some?
    modifies s
    ensures var w := WalkPages(s.server, s.renew, Some(CatalogUrl(season, year)),
                               old(s.headers), old(s.refreshes), fuel).value;
      && r == w.result
      && s.headers == w.headers
      && s.refreshes == w.refreshes
      && s.sent == old(s.sent) + w.sent
  {
    var url: Option<string> := Some(CatalogUrl(season, year));
    var seasonal: seq<T> := [];
    ghost var whole := WalkPages(s.server, s.renew, url, s.headers, s.refreshes, fuel);
    ghost var pages: seq<Page<T>> := [];
    ghost var issued: seq<Request> := [];
    ghost var left := fuel;
    PrependNothing(whole);
    while HasCursor(url)
      invariant whole.Some?
      invariant whole == Prepend(seasonal, pages, issued,
                                 WalkPages(s.server, s.renew, url, s.headers, s.refreshes, left))
      invariant s.sent == old(s.sent) + issued
      decreases left
    {
      var data, sentNow := FetchPage(s, url.value, whole, seasonal, pages, issued, left, old(s.sent));
      match data {
        case Failure(e) =>
          return Failure(e);
        case Success(page) =>
          seasonal := seasonal + page.data;
          pages := pages + [page];
          issued := issued + sentNow;
          url := page.next;
          left := left - 1;
      }
    }
    assert seasonal + [] == seasonal && pages + [] == pages && issued + [] == issued;
    r := Success(seasonal);
  }

  /** `get_watching_list`: one request; only the first page's `data` is
      returned, even if the answer carries a `paging.next` cursor. */
  method GetWatchingList<T>(s: Session<Page<T>>, username: string)
    returns (r: Result<seq<T>, FetchError>)
    modifies s
    ensures var x := SafeGetSpec(s.server, s.renew(old(s.refreshes)), WatchListUrl(username), old(s.headers));
      && r == (if x.result.Success? then Success(x.result.value.data) else Failure(x.result.error))
      && s.headers == x.headers
      && s.refreshes == old(s.refreshes) + (if x.refreshed then 1 else 0)
      && s.sent == old(s.sent) + x.sent
  {
    var data := s.SafeGet(WatchListUrl(username));
    match data {
      case Failure(e) => r := Failure(e);
      case Success(page) => r := Success(page.data);
    }
  }
}
