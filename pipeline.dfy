/** The record the backend sends, as the dashboard renders it: which of the
    facts the charts need hold for every record `scrape_website` builds, and
    which records the link chart cannot draw. */
module Pipeline {
  import opened Wrappers
  import opened ChartMath
  import opened ScrapeModel
  import opened Scraper
  import opened ProductCharts
  import opened DashboardCharts
  import opened ScrapeLinks
  import opened ScrapeProducts

  /** The link chart sums the two counts to the backend's link metric, so it
      divides by zero exactly for a page without counted links. */
  lemma LinkChartOfRecord(r: ScrapeResult)
    requires WellFormed(r)
    ensures LinkTotal(r.linkAnalysis) == r.metrics.links
  {
    assert r.linkAnalysis == BackendLinks(r.linkAnalysis[0].count, r.linkAnalysis[1].count);
  }

  /** The link chart's total is zero, so its shares are 0/0, exactly when
      every href of the page is skipped; a page without links is one. */
  lemma LinkTotalZero(url: string, page: Page, env: Environment)
    requires Scrape(url, Success(page), env).Success?
    ensures var r := Scrape(url, Success(page), env).value;
      && (LinkTotal(r.linkAnalysis) == 0 <==> CountOf(page.hrefs, Domain(url).value, Skipped) == |page.hrefs|)
      && (page.hrefs == [] ==> LinkTotal(r.linkAnalysis) == 0)
  {
    var r := Scrape(url, Success(page), env).value;
    ScrapeSpec(url, Success(page), env);
    LinkChartOfRecord(r);
    CountPartition(page.hrefs, Domain(url).value);
  }

  /** The price bars of a record can be drawn when the random draws lie in
      their ranges and the found amounts are not negative: some bucket is
      non-empty. */
  lemma PriceBarsOfRecord(url: string, page: Page, env: Environment)
    requires Scrape(url, Success(page), env).Success?
    requires forall i :: ValidDraw(env.draws(i))
    requires forall k | 0 <= k < |page.foundPrices| :: page.foundPrices[k] >= 0.0
    ensures Max(BucketCounts(Scrape(url, Success(page), env).value.products)) > 0
  {
    var ps := Scrape(url, Success(page), env).value.products;
    ExtractedShape(page.isEcommerce, page.containers, page.headings, page.foundPrices, env.draws);
    ExtractedBounds(page.isEcommerce, page.containers, page.headings, page.foundPrices, env.draws);
    PriceBarsDefined(ps);
    assert ps[0].price >= 0.0;
  }

  /** The products view can always be drawn: the pie has slices, and the price
      chart has at least two points and shows the first product's name, with
      its price as the current price. */
  lemma ProductsViewOfRecord(r: ScrapeResult)
    requires WellFormed(r)
    ensures PieBackground(r.products).Gradient?
    ensures |r.priceHistory| > 0 && |r.priceHistory[0].priceData| >= 2
    ensures PriceChartOf(r.priceHistory).title == r.products[0].name
    ensures PriceChartOf(r.priceHistory).current == r.products[0].price
  {
    PieSpec(r.products);
  }

  /** The visitor chart of every record can be drawn, its last bar is 120
      pixels high and the bars grow from left to right. */
  lemma VisitorChartOfRecord(url: string, page: Page, env: Environment)
    requires Scrape(url, Success(page), env).Success?
    ensures var t := Scrape(url, Success(page), env).value.timeData;
      && Max(VisitorCounts(t)) > 0
      && VisitorHeights(t)[6] == 120.0
      && (forall i, j | 0 <= i < j < 7 :: VisitorHeights(t)[i] < VisitorHeights(t)[j])
  {
    VisitorChartOfTimeData(env.dateOf);
  }

  /** The word bars and the word table of every record can be drawn. */
  lemma WordChartsOfRecord(url: string, page: Page, env: Environment)
    requires Scrape(url, Success(page), env).Success?
    ensures Drawable(Scrape(url, Success(page), env).value.frequentWords)
  {
    FrequentWordsCharts(page.words);
  }
}
