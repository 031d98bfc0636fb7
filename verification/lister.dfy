/** The lister's entry points: the book record from the landing page, the
    volume list from the data feed the page's last script points to, and
    the two together. The landing page arrives already fetched and parsed
    (as a Page), and the feed fetch is the function `get` from URL to body. */
module Lister {
  import opened Wrappers
  import opened Core
  import opened FeedUrl
  import opened VolumeFeed
  import FeedEncoding

  /** What the lister reads from the parsed landing page: the text of the
      title element, the `value` of the `bookid` input (None when either
      is absent), and the texts of the scripts marked as javascript, in
      document order. */
  datatype Page = Page(title: Option<string>, bookId: Option<string>, scripts: seq<string>)

  /** `__extract_book_info`: the scraped title and id, the page URL, and
      the three fields the lister never fills. The title is looked up
      first, so its absence is the error reported when both are missing. */
  function ExtractBookInfo(url: string, page: Page): (r: Result<BookInfo, Error>)
    ensures r.Ok? <==> page.title.Some? && page.bookId.Some?
    ensures r.Ok? ==> r.value.id == page.bookId.value
    ensures r.Ok? ==> r.value.name == page.title.value && r.value.url == url
    ensures r.Ok? ==> r.value.author == "" && r.value.status == "" && r.value.lastUpdate == ""
    ensures page.title.None? ==> r == Err(TitleMissing)
    ensures page.title.Some? && page.bookId.None? ==> r == Err(BookIdMissing)
  {
    match page.title
    case None => Err(TitleMissing)
    case Some(name) =>
      match page.bookId
      case None => Err(BookIdMissing)
      case Some(id) => Ok(BookInfo(id, name, url, "", "", ""))
  }

  /** `find_all(...)[-1].text`: the last javascript block. */
  function LastScript(scripts: seq<string>): string
    requires |scripts| > 0
  {
    scripts[|scripts| - 1]
  }

  /** The URL of the data feed: searched for in the last javascript block
      only. */
  function FeedRequest(scripts: seq<string>): (r: Result<string, Error>)
    ensures |scripts| == 0 ==> r == Err(NoScriptFound)
    ensures |scripts| > 0 ==> (r.Err? <==> forall i :: !MatchesAt(LastScript(scripts), i))
    ensures |scripts| > 0 && r.Err? ==> r.error == PatternNotMatched
    ensures r.Ok? ==> |r.value| > |Origin| && r.value[..|Origin|] == Origin
    ensures r.Ok? ==> IsFeedPath(r.value[|Origin|..])
    ensures r.Ok? ==> |scripts| > 0 && Search(LastScript(scripts)).Some?
    ensures r.Ok? ==> r.value == Origin + LastScript(scripts)[Search(LastScript(scripts)).value.start..Search(LastScript(scripts)).value.end]
  {
    if |scripts| == 0 then Err(NoScriptFound)
    else FindFeedUrl(LastScript(scripts))
  }

  /** `__extract_volumes`: find the feed URL, fetch the feed once, parse it. */
  function ExtractVolumes(scripts: seq<string>, get: string -> string): (r: Result<seq<VolInfo>, Error>)
    ensures FeedRequest(scripts).Err? ==> r == Err(FeedRequest(scripts).error)
    ensures FeedRequest(scripts).Ok? ==> r == ExtractVolumeList(get(FeedRequest(scripts).value))
  {
    match FeedRequest(scripts)
    case Err(e) => Err(e)
    case Ok(url) => ExtractVolumeList(get(url))
  }

  /** `extract_book_info_and_volumes`: the book record, then the volumes;
      a failure in either is the result, the book record's first. */
  function ExtractBookInfoAndVolumes(url: string, page: Page, get: string -> string)
    : (r: Result<(BookInfo, seq<VolInfo>), Error>)
    ensures r.Ok? <==> ExtractBookInfo(url, page).Ok? && ExtractVolumes(page.scripts, get).Ok?
    ensures r.Ok? ==> r.value.0 == ExtractBookInfo(url, page).value
    ensures r.Ok? ==> r.value.1 == ExtractVolumes(page.scripts, get).value
    ensures ExtractBookInfo(url, page).Err? ==> r == Err(ExtractBookInfo(url, page).error)
    ensures ExtractBookInfo(url, page).Ok? && ExtractVolumes(page.scripts, get).Err?
      ==> r == Err(ExtractVolumes(page.scripts, get).error)
  {
    match ExtractBookInfo(url, page)
    case Err(e) => Err(e)
    case Ok(book) =>
      match ExtractVolumes(page.scripts, get)
      case Err(e) => Err(e)
      case Ok(volumes) => Ok((book, volumes))
  }

  /** When no feed URL is found the feed is never fetched: the outcome is
      the same error whatever the transport would have answered. */
  lemma NoFeedUrlNoFetch(url: string, page: Page, get1: string -> string, get2: string -> string)
    requires FeedRequest(page.scripts).Err?
    ensures ExtractBookInfoAndVolumes(url, page, get1) == ExtractBookInfoAndVolumes(url, page, get2)
    ensures ExtractBookInfoAndVolumes(url, page, get1).Err?
  {
  }

  /** End to end: a landing page with a title, an id and a feed path in its
      last script, whose feed holds encoded records, yields the book record
      and exactly those records, in order. */
  lemma ExtractsEncodedFeed(url: string, page: Page, get: string -> string,
                            vs: seq<VolInfo>, w: string)
    requires page.title.Some? && page.bookId.Some?
    requires FeedRequest(page.scripts).Ok?
    requires forall k :: 0 <= k < |vs| ==> FeedEncoding.IsEncodable(vs[k])
    requires FeedEncoding.IsWrapper(w)
    requires get(FeedRequest(page.scripts).value) == FeedEncoding.EncodeFeed(vs, w)
    ensures ExtractBookInfoAndVolumes(url, page, get)
      == Ok((BookInfo(page.bookId.value, page.title.value, url, "", "", ""), vs))
  {
    FeedEncoding.FeedRoundTrip(vs, w);
  }
}
