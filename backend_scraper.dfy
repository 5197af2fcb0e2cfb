/** backend/app.py's `scrape_website` and the POST endpoint `receive_url` that
    calls it. The fetched page is an input: either the facts BeautifulSoup
    would extract from it, or the text of the request error. The clock and the
    random draws are inputs too. */
module Scraper {
  import opened Wrappers
  import opened Text
  import opened ChartMath
  import opened ScrapeModel
  import opened ScrapeWords
  import opened ScrapeLinks
  import opened ScrapeProducts

  // ---------------------------------------------------------------------------
  // time_data

  /** Visitors on day i of the week: 100 + 30i + 2i². */
  function Visitors(i: nat): nat {
    100 + i * 30 + i * i * 2
  }

  /** The seven points of `time_data`; dateOf(d) is the date d days ago. */
  function TimeData(dateOf: nat -> string): (t: seq<VisitorPoint>)
    ensures |t| == 7
  {
    seq(7, i requires 0 <= i < 7 => VisitorPoint(dateOf(6 - i), Visitors(i)))
  }

  lemma SquareMonotone(i: nat, j: nat)
    requires i < j
    ensures i * i < j * j
  {
    assert j * j - i * i == (j - i) * (j + i);
  }

  /** The visitor series grows strictly. */
  lemma VisitorsIncreasing(i: nat, j: nat)
    requires i < j
    ensures Visitors(i) < Visitors(j)
  {
    SquareMonotone(i, j);
  }

  /** Seven points dated from six days ago to today, whose visitor counts
      strictly increase from 100 to 352. */
  lemma TimeDataSpec(dateOf: nat -> string)
    ensures var t := TimeData(dateOf);
      && t[0].visitors == 100 && t[6].visitors == 352
      && (forall i, j | 0 <= i < j < 7 :: t[i].visitors < t[j].visitors)
      && (forall i | 0 <= i < 7 :: 100 <= t[i].visitors <= 352 && t[i].date == dateOf(6 - i))
  {
    var t := TimeData(dateOf);
    forall i, j | 0 <= i < j < 7 ensures t[i].visitors < t[j].visitors {
      VisitorsIncreasing(i, j);
    }
    forall i | 0 <= i < 7 ensures 100 <= t[i].visitors <= 352 {
      if i < 6 {
        VisitorsIncreasing(i, 6);
      }
    }
  }

  /** The `for i in range(7)` loop appending to `time_data`. */
  method BuildTimeData(dateOf: nat -> string) returns (series: seq<VisitorPoint>)
    ensures series == TimeData(dateOf)
  {
    series := [];
    var i := 0;
    while i < 7
      invariant 0 <= i <= 7
      invariant series == TimeData(dateOf)[..i]
    {
      series := series + [VisitorPoint(dateOf(6 - i), Visitors(i))];
      i := i + 1;
    }
  }

  // ---------------------------------------------------------------------------
  // scrape_website

  /** What BeautifulSoup finds in a fetched page. title is None without a
      title element, and otherwise the element's `.string`: None when the
      element has no single string child (`<title></title>`,
      `<title>A<b>B</b></title>`). words the lower-cased word tokens of
      the page text, hrefs the href of every link that has one, isEcommerce the
      outcome of the indicator search, containers/headings the product
      containers and h1/h2/h3 texts, and foundPrices the currency amounts the
      price patterns find. */
  datatype Page = Page(
    title: Option<Option<string>>,
    words: seq<string>,
    paragraphs: nat,
    images: nat,
    hrefs: seq<string>,
    isEcommerce: bool,
    containers: seq<Container>,
    headings: seq<string>,
    foundPrices: seq<real>)

  /** The clock and the random draws: now is `datetime.now().isoformat()`,
      dateOf(d) the date d days ago, draws(i) the draws for product i and
      drift(k, d) the simulated price of product k, d days ago. */
  datatype Environment = Environment(
    now: string,
    dateOf: nat -> string,
    draws: nat -> Draw,
    drift: (nat, nat) -> real)

  const NoTitle := "No title found"
  const IndexErrorMessage := "list index out of range"

  /** `soup.title.string if soup.title else "No title found"`; None is the
      JSON `null` sent for a title element without a single string. */
  function TitleOf(title: Option<Option<string>>): (r: Option<string>)
    ensures title.None? ==> r == Some(NoTitle)
    ensures title.Some? ==> r == title.value
  {
    match title
    case None => Some(NoTitle)
    case Some(s) => s
  }

  /** The record `scrape_website` builds for a fetched page whose URL has a domain. */
  function Analysis(url: string, domain: string, page: Page, env: Environment): ScrapeResult {
    var internal := CountOf(page.hrefs, domain, InternalLink);
    var external := CountOf(page.hrefs, domain, ExternalLink);
    var products := Extracted(page.isEcommerce, page.containers, page.headings, page.foundPrices, env.draws);
    ScrapeResult(
      PageInfo(TitleOf(page.title), url, env.now),
      Metrics(|page.words|, page.paragraphs, page.images, internal + external),
      FrequentWords(page.words),
      [LinkEntry("Internal", internal), LinkEntry("External", external)],
      TimeData(env.dateOf),
      products,
      PriceHistory(products, env.dateOf, env.drift))
  }

  /** `scrape_website(url)`, as a result: the message of the exception it raises
      on failure. */
  function Scrape(url: string, fetched: Result<Page, string>, env: Environment): Result<ScrapeResult, string> {
    match fetched
    case Failure(e) => Failure("Failed to fetch URL: " + e)
    case Success(page) =>
      match Domain(url)
      case Failure(_) => Failure(IndexErrorMessage)
      case Success(domain) => Success(Analysis(url, domain, page, env))
  }

  /** The invariants of every record the backend sends. */
  predicate WellFormed(r: ScrapeResult) {
    && |r.linkAnalysis| == 2
    && r.linkAnalysis[0].kind == "Internal" && r.linkAnalysis[1].kind == "External"
    && r.metrics.links == r.linkAnalysis[0].count + r.linkAnalysis[1].count
    && |r.frequentWords| <= 5
    && |r.timeData| == 7
    && 0 < |r.products| <= 10
    && (forall i | 0 <= i < |r.products| :: r.products[i].id == i + 1)
    && |r.priceHistory| == |r.products|
    && (forall k | 0 <= k < |r.products| ::
          && r.priceHistory[k].productId == r.products[k].id
          && r.priceHistory[k].productName == r.products[k].name
          && |r.priceHistory[k].priceData| == 31
          && r.priceHistory[k].priceData[30].price == r.products[k].price)
  }

  /** A scrape succeeds exactly when the page was fetched and the URL contains
      `//`, and then the record keeps the invariants, counts at most one link
      per href and echoes the URL and word count. */
  lemma ScrapeSpec(url: string, fetched: Result<Page, string>, env: Environment)
    ensures Scrape(url, fetched, env).Success? <==> fetched.Success? && Contains(url, "//")
    ensures fetched.Failure? ==> Scrape(url, fetched, env) == Failure("Failed to fetch URL: " + fetched.error)
    ensures Scrape(url, fetched, env).Success? ==>
      var r := Scrape(url, fetched, env).value;
      && WellFormed(r)
      && r.metrics.links <= |fetched.value.hrefs|
      && r.metrics.wordCount == |fetched.value.words|
      && r.pageInfo.url == url
      && r.pageInfo.title == TitleOf(fetched.value.title)
  {
    DomainSpec(url);
    if fetched.Success? && Contains(url, "//") {
      var page := fetched.value;
      var domain := Domain(url).value;
      var r := Analysis(url, domain, page, env);
      CountPartition(page.hrefs, domain);
      ExtractedShape(page.isEcommerce, page.containers, page.headings, page.foundPrices, env.draws);
      FrequentWordsLength(page.words);
      forall k | 0 <= k < |r.products|
        ensures && r.priceHistory[k].productId == r.products[k].id
                && r.priceHistory[k].productName == r.products[k].name
                && |r.priceHistory[k].priceData| == 31
                && r.priceHistory[k].priceData[30].price == r.products[k].price
      {
        HistoryShape(r.products, k, env.dateOf, env.drift);
      }
    }
  }

  /** `scrape_website`: the link loop, the time_data loop, `extract_products`
      and `generate_price_history`, in the order the backend runs them. */
  method ScrapeWebsite(url: string, fetched: Result<Page, string>, env: Environment)
    returns (r: Result<ScrapeResult, string>)
    ensures r == Scrape(url, fetched, env)
  {
    if fetched.Failure? {
      return Failure("Failed to fetch URL: " + fetched.error);
    }
    var page := fetched.value;
    var title := TitleOf(page.title);
    var frequent := FrequentWords(page.words);
    var domainOrError := Domain(url);
    if domainOrError.Failure? {
      return Failure(IndexErrorMessage);
    }
    var domain := domainOrError.value;
    var internal, external := CountLinks(page.hrefs, domain);
    var timeData := BuildTimeData(env.dateOf);
    var products := ExtractProducts(page.isEcommerce, page.containers, page.headings, page.foundPrices, env.draws);
    var history := GeneratePriceHistory(products, env.dateOf, env.drift);
    r := Success(ScrapeResult(
      PageInfo(title, url, env.now),
      Metrics(|page.words|, page.paragraphs, page.images, internal + external),
      frequent,
      [LinkEntry("Internal", internal), LinkEntry("External", external)],
      timeData,
      products,
      history));
  }

  // ---------------------------------------------------------------------------
  // receive_url

  /** An HTTP response: status code and JSON body. */
  datatype Response = Response(status: nat, body: ResponseBody)

  /** The answer of the endpoint. request is the parsed JSON body (None when
      there is none); fetch says what requesting a URL returns. */
  function Respond(request: Option<map<string, string>>, fetch: string -> Result<Page, string>,
                   env: Environment): Response
  {
    if request.None? || "url" !in request.value then
      Response(400, ErrorBody("error", "No URL provided"))
    else
      var url := request.value["url"];
      match Scrape(url, fetch(url), env)
      case Success(result) => Response(200, Scraped(result))
      case Failure(message) => Response(500, ErrorBody("error", message))
  }

  /** A request without a url gets 400; otherwise the answer is 200 with the
      scrape result exactly when the scrape succeeds, and 500 with the error
      message when it fails. */
  lemma RespondSpec(request: Option<map<string, string>>, fetch: string -> Result<Page, string>,
                    env: Environment)
    ensures var resp := Respond(request, fetch, env);
      && (resp.status == 400 <==> request.None? || "url" !in request.value)
      && (resp.status == 200 <==> resp.body.Scraped?)
      && (resp.status in {200, 400, 500})
      && (resp.body.ErrorBody? ==> resp.body.status == "error")
      && (request.Some? && "url" in request.value ==>
            var url := request.value["url"];
            && (resp.status == 200 <==> fetch(url).Success? && Contains(url, "//"))
            && (resp.status == 200 ==> WellFormed(resp.body.result)))
  {
    if request.Some? && "url" in request.value {
      var url := request.value["url"];
      ScrapeSpec(url, fetch(url), env);
    }
  }

  /** `receive_url`. */
  method ReceiveUrl(request: Option<map<string, string>>, fetch: string -> Result<Page, string>,
                    env: Environment) returns (resp: Response)
    ensures resp == Respond(request, fetch, env)
  {
    if request.None? || "url" !in request.value {
      return Response(400, ErrorBody("error", "No URL provided"));
    }
    var url := request.value["url"];
    var scraped := ScrapeWebsite(url, fetch(url), env);
    match scraped
    case Success(result) =>
      resp := Response(200, Scraped(result));
    case Failure(message) =>
      resp := Response(500, ErrorBody("error", message));
  }
}
