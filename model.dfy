/** The JSON document that the backend returns for one scraped page and that
    the dashboard renders (the scrape result of the backend's `scrape_website`). */
module ScrapeModel {
  import opened Wrappers

  /** One product row. Prices and ratings are exact reals: the binary rounding
      of Python and JavaScript floating point is not modelled. */
  datatype Product = Product(
    id: int,
    name: string,
    price: real,
    category: string,
    rating: real,
    inStock: bool)

  datatype PricePoint = PricePoint(date: string, price: real)

  /** The price history of one product. */
  datatype PriceSeries = PriceSeries(productId: int, productName: string, priceData: seq<PricePoint>)

  datatype WordEntry = WordEntry(word: string, count: nat)

  /** One entry of the link analysis; `kind` is the JSON field `type`. */
  datatype LinkEntry = LinkEntry(kind: string, count: nat)

  datatype VisitorPoint = VisitorPoint(date: string, visitors: nat)

  datatype PageInfo = PageInfo(title: Option<string>, url: string, lastScraped: string)

  datatype Metrics = Metrics(wordCount: nat, paragraphs: nat, images: nat, links: nat)

  datatype ScrapeResult = ScrapeResult(
    pageInfo: PageInfo,
    metrics: Metrics,
    frequentWords: seq<WordEntry>,
    linkAnalysis: seq<LinkEntry>,
    timeData: seq<VisitorPoint>,
    products: seq<Product>,
    priceHistory: seq<PriceSeries>)

  /** A JSON body the backend can answer with: the scrape result, or the
      `{status, message}` object of its error responses. */
  datatype ResponseBody =
    | Scraped(result: ScrapeResult)
    | ErrorBody(status: string, message: string)
}
