# WebMiner analysis and chart model

WebMiner is a small scraping dashboard. A Flask endpoint, `receive_url`, fetches
a web page and `scrape_website` turns it into one analysis record. The record holds:

- the page title, word count, paragraph and image counts;
- the five most frequent non-stop words;
- an internal/external link split;
- a fixed seven-day visitor series;
- the products found on the page, with a simulated 31-day price history for each.

A React dashboard sends the URL, keeps the answer in component state and draws
the record:

- bars for word frequencies and visitors;
- conic-gradient pies for link types and product categories;
- a five-bucket price histogram;
- a price line for the first product;
- a ranked word table.

The Dafny project models these rules:

- the backend's analysis rules (`backend/app.py`);
- the chart-data derivations of `frontend/src/components/Product.js` and `frontend/src/components/dashboard.js`;
- the dashboard's view state, as a state machine and as a class whose methods are the event handlers.

The model runs from the request to the drawn chart. The page as BeautifulSoup
sees it is an input with these fields:

- the title;
- the word tokens;
- the counts;
- the hrefs;
- the outcome of the e-commerce indicator search;
- the texts of the product containers and headings;
- the currency amounts found.

The clock and every random draw are inputs as well.

Files and modules:

| file | module | models |
|---|---|---|
| wrappers.dfy | Wrappers | Option and Result |
| model.dfy | ScrapeModel | the JSON record the backend sends (products, price series, word, link and visitor entries, error body) |
| tally.dfy | Tally | occurrence counts and first-occurrence distinct lists, shared by `Counter` and the category count |
| text.dfy | Text | substring search, Python `str.split`, `str.lower` on ASCII, `str.strip` |
| chart_math.dfy | ChartMath | sums, `Math.max`, percentages, normalising against a maximum, `Math.round`, `slice(5)` |
| backend_words.dfy | ScrapeWords | stop-word filter and `Counter(...).most_common(5)` |
| backend_links.dfy | ScrapeLinks | the domain split and the link-classification loop |
| backend_products.dfy | ScrapeProducts | price-text regex, stock text, `extract_products`, `generate_price_history` |
| backend_scraper.dfy | Scraper | the visitor series, `scrape_website`, `receive_url` |
| product_charts.dfy | ProductCharts | category count and pie, price buckets, star fill, price-line geometry |
| dashboard_charts.dfy | DashboardCharts | word bars, link pie and legend, visitor bars, word table |
| dashboard_state.dfy | DashboardView | login, profile, view, submit and logout state; which main panel is shown |
| pipeline.dfy | Pipeline | which of the dashboard's charts can draw every record the backend builds, and when the link chart cannot |

Prices and percentages are exact `real`s; counts are `nat`s.

Three behaviours of the code that the model keeps:

- Price buckets are half-open (Product.js:247), so a price of exactly 10 is counted in `$10-$25`. The five prices 0, 9.99, 10, 99.999 and 100 give the bucket counts [2, 1, 0, 1, 1].
- The charts divide by totals and maxima without guards: by the link total, the word total, the largest word, visitor and bucket count, and by `length - 1` for the price line's x. Each of these divisions is a precondition of the modelled function.
  - For the products view, the visitor chart and the word charts, the lemmas in `Pipeline` prove that every record the backend builds meets these preconditions. The price bars need the random draws to lie in their ranges.
  - The link chart is the exception. Its total is zero exactly when every href of the page is skipped, e.g. a page without links, and it then shows `NaN%` shares. `Pipeline.LinkTotalZero` states when this happens.
- A product container whose stock text reads "Not in stock" is flagged as in stock, because the code looks for the substring "in stock" (app.py:169). `ScrapeProducts.NotInStockCountsAsInStock` states it.

## Model

| member | source | states |
|---|---|---|
| ScrapeWords.FilterWords | backend/app.py:47-48 | every word kept is outside the 21 stop words and longer than two characters |
| ScrapeWords.FilterWordsCounts | backend/app.py:48 | a word that passes the filter keeps all its occurrences; any other word keeps none |
| ScrapeWords.CounterEntries | backend/app.py:49 | one entry per distinct filtered word, in first-occurrence order, holding its number of occurrences |
| ScrapeWords.CounterEntriesDistinct | backend/app.py:49 | no word has two counter entries |
| ScrapeWords.SortFacts | backend/app.py:49 | the count sort is a permutation of its input, leaves counts non-increasing and keeps distinct words distinct |
| ScrapeWords.FrequentWordsLength | backend/app.py:49-50 | `frequent_words` has min(5, distinct kept words) entries |
| ScrapeWords.FrequentWordsEntries | backend/app.py:47-50 | each entry is a kept word whose count is its (positive) number of occurrences in the page's words |
| ScrapeWords.FrequentWordsOrdered | backend/app.py:49-50 | counts are non-increasing and no word appears twice |
| ScrapeWords.FrequentWordsTop | backend/app.py:49 | a kept word of the page left out of the list means the list is full and its fifth count is at least that word's |
| ScrapeLinks.DomainSpec | backend/app.py:58 | the domain exists exactly when the URL contains `//`; it is then the text after the first `//` up to, not including, the next `/` |
| ScrapeLinks.FirstSegmentUnique | backend/app.py:58 | that description fixes the domain uniquely |
| ScrapeLinks.ClassifySpec | backend/app.py:63-70 | empty and `#` hrefs are skipped; of the rest, those starting with `/` or containing the domain are internal, all others external (each an if-and-only-if) |
| ScrapeLinks.EmptyDomainAllInternal | backend/app.py:67 | with an empty domain (a URL such as `http:///x`) no link is external |
| ScrapeLinks.CountPartition | backend/app.py:63-70 | skipped, internal and external counts add up to the number of hrefs |
| ScrapeLinks.CountLinks | backend/app.py:60-70 | the loop's two counters are the internal and external counts, and their sum is the number of hrefs not skipped |
| Scraper.VisitorsIncreasing | backend/app.py:78 | 100 + 30i + 2i² strictly increases with i |
| Scraper.TimeDataSpec | backend/app.py:76-79 | seven points dated six days ago to today, visitors strictly increasing from 100 to 352 |
| Scraper.BuildTimeData | backend/app.py:74-79 | the appending loop builds exactly that series |
| ScrapeProducts.RunEnd | backend/app.py:159 | the end of the maximal digit run at a position |
| ScrapeProducts.FirstDigitFrom | backend/app.py:159 | the leftmost digit at or after a position, or none when there is no digit |
| ScrapeProducts.MatchAtSpec | backend/app.py:159 | the match at a digit is a number token not followed by a digit, and a plain digit run only when no `.digit` follows it |
| ScrapeProducts.DigitMatch | backend/app.py:159 | without a following `.digit` the match is the whole digit run |
| ScrapeProducts.DecimalMatch | backend/app.py:159 | with a following `.digit` the decimal alternative wins and takes both digit runs |
| ScrapeProducts.SearchNumberSpec | backend/app.py:159-160 | `re.search` fails exactly when the text has no digit; otherwise the match starts at the leftmost digit and has the shape above |
| ScrapeProducts.PriceFromText | backend/app.py:155-164 | the price read from a card is never negative |
| ScrapeProducts.PriceWithoutDigits | backend/app.py:143 | price text without a digit leaves the price at 0.0 |
| ScrapeProducts.IntegerValue | backend/app.py:162 | `float` of a digit run is its decimal value |
| ScrapeProducts.DecimalValue | backend/app.py:162 | `float` of `a.b` is a plus b scaled by its number of digits |
| ScrapeProducts.StockFlag | backend/app.py:146-169 | with a stock element, in stock exactly when its lower-cased text contains "in stock"; without one, the random bit |
| ScrapeProducts.NotInStockCountsAsInStock | backend/app.py:169 | the text "Not in stock" counts as in stock |
| ScrapeProducts.PotentialNames | backend/app.py:176 | at most one name per heading, each longer than 5 and shorter than 100 characters |
| ScrapeProducts.PotentialNameSource | backend/app.py:176 | every name is a stripped heading |
| ScrapeProducts.PotentialNameKept | backend/app.py:176 | every stripped heading of admissible length is a name |
| ScrapeProducts.ContainerProducts | backend/app.py:139-171 | min(10, containers) products, the i-th read from the i-th container with id i + 1 |
| ScrapeProducts.HeadingProducts | backend/app.py:192-201 | min(5, names) products, the i-th named by the i-th name with id i + 1 |
| ScrapeProducts.ExtractedShape | backend/app.py:109-213 | the product list is never empty, has at most 10 entries and numbers them 1, 2, … |
| ScrapeProducts.ContainerPath | backend/app.py:136-171 | with containers: one product per container up to 10, category "Unknown", price from the price text, name stripped or "Unknown Product", stock from the stock text |
| ScrapeProducts.HeadingPath | backend/app.py:174-201 | with no containers and some names: min(5, names) products named by the headings, priced by the found amounts while they last |
| ScrapeProducts.SampleFallback | backend/app.py:121-131 | no e-commerce indicator, or neither containers nor names, gives the five sample products; containers on an e-commerce page never do |
| ScrapeProducts.ExtractedBounds | backend/app.py:145-198 | with draws in their ranges, every price is non-negative and every rating lies in [3, 5] |
| ScrapeProducts.CollectContainers | backend/app.py:139-171 | the container loop appends exactly the container products |
| ScrapeProducts.CollectHeadings | backend/app.py:192-201 | the heading loop appends exactly the heading products |
| ScrapeProducts.ExtractProducts | backend/app.py:109-213 | `extract_products` returns the modelled product list: non-empty, at most 10, ids 1.. in order |
| ScrapeProducts.PriceHistory | backend/app.py:215-246 | one series per product |
| ScrapeProducts.HistoryShape | backend/app.py:220-244 | series k copies product k's id and name and has 31 points dated 30 days ago to today, the last at the product's own price |
| ScrapeProducts.GeneratePriceHistory | backend/app.py:215-246 | the nested loops build exactly that history |
| Scraper.TitleOf | backend/app.py:41 | "No title found" without a title element, otherwise the element's `.string`, `null` when it has no single string |
| Scraper.ScrapeSpec | backend/app.py:29-107 | a scrape succeeds exactly when the page was fetched and the URL contains `//`; a fetch error is reported as "Failed to fetch URL: …"; a record has two link entries Internal then External summing to `metrics.links`, at most 5 words, 7 visitor points, 1–10 products numbered in order and one 31-point series per product; `metrics.links` is at most the number of hrefs |
| Scraper.ScrapeWebsite | backend/app.py:29-107 | the imperative scrape computes exactly that result |
| Scraper.RespondSpec | backend/app.py:14-27 | 400 exactly without a url; otherwise 200 with a well-formed record exactly when the scrape succeeds, else 500 with an error body |
| Scraper.ReceiveUrl | backend/app.py:14-27 | the endpoint answers as specified |
| Text.Strip | backend/app.py:152 | the result is the input with leading and trailing Python whitespace removed, and starts and ends with non-space |
| Text.StripIdempotent | backend/app.py:176 | stripping twice is stripping once |
| Text.Lower | backend/app.py:169 | same length, no upper-case ASCII letter left, each character unchanged or its lower-case form |
| Text.ContainsIff | backend/app.py:67 | `p in s` holds exactly when p occurs at some index of s |
| Text.JoinSplit | backend/app.py:58 | joining the pieces of a split with the separator gives back the text |
| Text.SplitPiecesAvoidSeparator | backend/app.py:58 | no piece of a split contains the separator |
| ProductCharts.CountCategories | frontend/src/components/Product.js:161-170 | the `forEach` tally yields the category list |
| ProductCharts.TallyStep | frontend/src/components/Product.js:162-168 | incrementing a known category or creating a new one at 1 keeps keys and counts equal to the occurrences so far |
| ProductCharts.CategoryMembers | frontend/src/components/Product.js:161-170 | each category of a product appears exactly once, with its number of products as a positive count |
| ProductCharts.CategoryTotal | frontend/src/components/Product.js:170-171 | the counts add up to the number of products |
| ProductCharts.CategoryOrder | frontend/src/components/Product.js:170 | categories appear in order of first occurrence |
| Tally.DistinctOrder | frontend/src/components/Product.js:170 | the distinct list is ordered by first occurrence in its source |
| Tally.SumOccDistinct | frontend/src/components/Product.js:171 | the occurrences of the distinct values add up to the length of the list |
| ProductCharts.ColorOf | frontend/src/components/Product.js:296 | a listed category gets its palette colour, any other the grey of `Other` |
| ProductCharts.BoundaryStep | frontend/src/components/Product.js:298-299 | each slice ends where the running percentage plus its own share takes it |
| ProductCharts.SliceFacts | frontend/src/components/Product.js:295-299 | slice i spans its count's share of the total, inside [0, 100] |
| ProductCharts.GradientEnds | frontend/src/components/Product.js:290-304 | the first slice starts at 0% and the last ends at 100% |
| ProductCharts.GradientLayout | frontend/src/components/Product.js:289-308 | slices in input order, each starting where the previous ends, widths the count shares, colours by category |
| ProductCharts.ConicGradient | frontend/src/components/Product.js:289-308 | the accumulating loop emits exactly those slices |
| ProductCharts.PieSpec | frontend/src/components/Product.js:193 | the grey placeholder exactly when there are no products; otherwise one slice per category from 0% to 100% |
| ProductCharts.LegendBounds | frontend/src/components/Product.js:223 | the rounded legend share lies in [0, 100], is 100 for the only category and 0 for an empty one |
| ProductCharts.BucketOfPrice | frontend/src/components/Product.js:236-247 | a price lies in bucket i exactly when it is non-negative and i is its bucket; boundaries go to the upper bucket |
| ProductCharts.BucketTotal | frontend/src/components/Product.js:245-250 | the five bucket counts add up to the number of non-negative prices |
| ProductCharts.BucketCountsTotal | frontend/src/components/Product.js:245-250 | the same, for the products' prices |
| ProductCharts.PriceBarsDefined | frontend/src/components/Product.js:253 | the largest bucket count is positive exactly when some price is non-negative |
| ProductCharts.PriceBarWidths | frontend/src/components/Product.js:267 | five widths in [0, 100], exactly 100 for the fullest buckets |
| ProductCharts.StarsSpec | frontend/src/components/Product.js:33-34 | star i is filled exactly when i < floor(rating) clamped to [0, 5], so that many stars are filled |
| ProductCharts.Window | frontend/src/components/Product.js:69 | the last min(14, n) points, in their original order |
| ProductCharts.MinReal | frontend/src/components/Product.js:73 | a lower bound of the prices that is one of them |
| ProductCharts.MaxReal | frontend/src/components/Product.js:74 | an upper bound of the prices that is one of them |
| ProductCharts.PriceRange | frontend/src/components/Product.js:75 | always positive; max − min when the series is not flat |
| ProductCharts.XFacts | frontend/src/components/Product.js:79 | x strictly increases with the index |
| ProductCharts.XEnds | frontend/src/components/Product.js:79 | x runs from 0 to 100 |
| ProductCharts.YFacts | frontend/src/components/Product.js:80 | y lies in [0, 200], is 200 in a flat series and 0 at the maximum |
| ProductCharts.ChartPointsSpec | frontend/src/components/Product.js:78-82 | every y in [0, 200]; a flat series at 200; the highest price at 0; x strictly increasing from 0 to 100; date and price copied |
| ProductCharts.PathSpec | frontend/src/components/Product.js:85-87 | one command per point, a move for the first and a line for every later one, through the points |
| ProductCharts.AxisIndices | frontend/src/components/Product.js:135 | three in-range label indices: the first point, the middle, the last |
| ProductCharts.CurrentPriceIsLastPlotted | frontend/src/components/Product.js:145 | the current price is the last point of the window as well as of the full series |
| ProductCharts.AverageBounds | frontend/src/components/Product.js:150 | the average of the full series lies between its lowest and highest price |
| ProductCharts.PriceChartOf | frontend/src/components/Product.js:61-156 | one point and one path command per window point, low price at most the high |
| ChartMath.Max | frontend/src/components/dashboard.js:547 | `Math.max`: an upper bound that is one of the values |
| ChartMath.Scaled | frontend/src/components/dashboard.js:562 | value over maximum times the top: in [0, top], top exactly at the maximum, positive exactly for a positive value, monotone |
| ChartMath.ScaledTop | frontend/src/components/dashboard.js:562 | an entry reaches the top exactly when no value exceeds it |
| ChartMath.RatioFacts | frontend/src/components/dashboard.js:611 | the ratio times the maximum is value times top; bounds and both if-and-only-ifs |
| ChartMath.RatioStrict | frontend/src/components/dashboard.js:611 | a larger value gets a strictly larger ratio |
| ChartMath.PercentBounds | frontend/src/components/dashboard.js:650 | a share of a total lies in [0, 100] and is 100 exactly for the whole |
| ChartMath.PercentsOfTotal | frontend/src/components/dashboard.js:650 | the shares of a list's own sum add up to 100 |
| ChartMath.RoundHalfUpBounds | frontend/src/components/dashboard.js:590 | `Math.round` lies within one half of its argument |
| ChartMath.RoundedComplementSum | frontend/src/components/dashboard.js:590 | two complementary rounded shares add up to 100, or 101 when both round a half up |
| ChartMath.DropYear | frontend/src/components/dashboard.js:616 | `slice(5)` is what follows the first five characters |
| DashboardCharts.WordBarWidths | frontend/src/components/dashboard.js:546-570 | widths in [0, 100], positive exactly for positive counts, 100 exactly for the largest counts, monotone in the count |
| DashboardCharts.LinkColor | frontend/src/components/dashboard.js:587 | blue exactly for 'Internal', orange otherwise |
| DashboardCharts.LinkPie | frontend/src/components/dashboard.js:573-580 | a blue region from 0 to the first entry's share, then an orange one to 100 |
| DashboardCharts.LinkLegend | frontend/src/components/dashboard.js:584-590 | one legend item per entry with its type, count and colour, and its share rounded to within one half, in [0, 100] |
| DashboardCharts.BackendLinks | backend/app.py:98-101 | the two link entries add up to internal + external |
| DashboardCharts.BackendLinkChart | frontend/src/components/dashboard.js:572-597 | for a backend link split: the regions are the internal and external shares, legend colours match the regions, and the legend shares add up to 100 or 101 |
| DashboardCharts.VisitorHeights | frontend/src/components/dashboard.js:611 | heights in [0, 120], 120 exactly for the busiest day, strictly ordered like the visitors |
| DashboardCharts.DateLabels | frontend/src/components/dashboard.js:616 | each label is the date without its year |
| DashboardCharts.VisitorChartOfTimeData | frontend/src/components/dashboard.js:599-623 | for the backend's series, the maximum is positive, the bars rise strictly to 120 on the last day, labels are the dates without the year |
| DashboardCharts.WordTableSpec | frontend/src/components/dashboard.js:625-659 | rank is index + 1 in input order, word and count copied, shares in [0, 100] adding up to 100 |
| DashboardCharts.PositiveDrawable | frontend/src/components/dashboard.js:547 | positive counts make the maximum and the total positive |
| DashboardCharts.SortedCharts | frontend/src/components/dashboard.js:546-570 | for sorted positive counts, the first bar is full and widths and table counts do not increase |
| DashboardCharts.FrequentWordsCharts | frontend/src/components/dashboard.js:546-570 | the same for the backend's `frequent_words` |
| Pipeline.LinkChartOfRecord | frontend/src/components/dashboard.js:573 | the link chart's total is the record's `metrics.links` |
| Pipeline.LinkTotalZero | frontend/src/components/dashboard.js:573-590 | the link chart's total of a record is zero, so its shares are 0/0, exactly when every href is skipped; in particular for a page without links |
| Pipeline.PriceBarsOfRecord | frontend/src/components/Product.js:253-267 | with draws in their ranges and non-negative found amounts, some price bucket of a record is non-empty, so the bar widths are defined |
| Pipeline.ProductsViewOfRecord | frontend/src/components/dashboard.js:352-359 | every record's products view can be drawn: a gradient pie, a price chart with at least two points titled by the first product with its price as current price |
| Pipeline.VisitorChartOfRecord | frontend/src/components/dashboard.js:347 | every record's visitor chart can be drawn and rises strictly to 120 |
| Pipeline.WordChartsOfRecord | frontend/src/components/dashboard.js:345 | every record's word bars and table can be drawn |
| DashboardView.MainPanel | frontend/src/components/dashboard.js:309-333 | the empty panel, the loader or the results, each exactly under its render condition |
| DashboardView.ExactlyOnePanel | frontend/src/components/dashboard.js:309-333 | exactly one of the three panels is shown |
| DashboardView.InitialState | frontend/src/components/dashboard.js:6-12 | the dashboard starts signed in on the Dashboard view with the empty panel and the given user |
| DashboardView.StepCoherent | frontend/src/components/dashboard.js:65-78 | every handler keeps the invariant that the signed-in dashboard has a user and no redirect, since only `handleLogout` clears the user or redirects and it also signs out |
| DashboardView.LoadingChanges | frontend/src/components/dashboard.js:82-99 | Submit starts loading, completion ends it on both paths, no other event touches loading, and only completion changes the data |
| DashboardView.SubmitSpec | frontend/src/components/dashboard.js:80-101 | as written: a submission shows the loader and keeps the data; its completion ends loading, stores whatever body was parsed (kept when the request threw), and results then show exactly when a body arrived or data was there |
| DashboardView.StepConsistentUnlessErrorBody | frontend/src/components/dashboard.js:93-95 | as written, an event keeps the stored data a scrape result exactly unless it is a completion whose parsed body is the backend's error body |
| DashboardView.SubmitSpecCorrected | frontend/src/components/dashboard.js:80-101 | corrected completion: the same, except that the data is replaced exactly when a scrape result came back |
| DashboardView.StepConsistent | frontend/src/components/dashboard.js:333-336 | corrected completion: stored data is always a scrape result, so the results panel has a page title to show |
| DashboardView.LogoutSpec | frontend/src/components/dashboard.js:65-78 | logout shows the sign-in screen, closes the profile page, clears the user and sends the browser to `/`, leaving data, URL and loading alone |
| DashboardView.LoggedOutStays | frontend/src/components/dashboard.js:104 | once signed out, no event leads back to the dashboard (the login handler is empty) |
| DashboardView.ErrorBodyReachesResults | frontend/src/components/dashboard.js:95 | as written, a failed scrape's 500 error body is stored as data and the results panel is shown with it |
| DashboardView.ErrorBodyKeepsData | frontend/src/components/dashboard.js:95 | corrected completion: a 500 error body leaves the data unchanged, and results show exactly when data was already there |
| DashboardView.Dashboard.constructor | frontend/src/components/dashboard.js:6-12 | the state hooks' initial values with the `user` prop, satisfying the sign-in invariant |
| DashboardView.Dashboard.SetUrl | frontend/src/components/dashboard.js:292 | the URL input's `setUrl` |
| DashboardView.Dashboard.SetActiveView | frontend/src/components/dashboard.js:182-211 | a sidebar item's `setActiveView` |
| DashboardView.Dashboard.ToggleProfileMenu | frontend/src/components/dashboard.js:218 | the profile section flips the dropdown |
| DashboardView.Dashboard.ShowProfile | frontend/src/components/dashboard.js:262-265 | the Profile button opens the profile page and closes the dropdown |
| DashboardView.Dashboard.HideProfile | frontend/src/components/dashboard.js:430 | closing the profile page |
| DashboardView.Dashboard.HandleLogin | frontend/src/components/dashboard.js:45-63 | `handleLogin` changes nothing |
| DashboardView.Dashboard.HandleLogout | frontend/src/components/dashboard.js:65-78 | `handleLogout`'s state updates |
| DashboardView.Dashboard.HandleSubmit | frontend/src/components/dashboard.js:80-82 | the start of `handleSubmit`: loading begins |
| DashboardView.Dashboard.SubmitCompleted | frontend/src/components/dashboard.js:93-100 | the end of `handleSubmit` as written: any parsed body replaces the data, loading ends on both paths, and an error body then shows the results panel over data that is not a scrape result |

## Left out

- The HTTP layer is not modelled: `requests.get` and `raise_for_status`, Flask routing, `jsonify` and the frontend's `fetch`. A fetch is a given `Result` (the page, or the error's text), and a parsed response is a given `Result` as well.
- BeautifulSoup is not modelled. Its `find_all`, `select` and `get_text` results are fields of `Scraper.Page`. The title field tells a missing title element (`None`) from an element whose `.string` is `None` (`Some(None)`); the latter is sent as JSON `null`.
- `Scraper.Respond` models the request body as an optional JSON object of strings, because the dashboard only ever sends `{url: string}` (dashboard.js:85-91). Other JSON bodies are not modelled; app.py:16-21 handles them outside the `try`.
  - A list that contains "url", or a number, raises there, and Flask answers with its own error page.
  - A list or string without "url" gets the 400 answer. The model does not represent such bodies.
  - A non-string `url` reaches `requests.get` and gets the 500 error body. The model does not represent such a value.
  - A body that is not JSON makes `get_json` refuse the request.
- The `\b\w+\b` tokenisation is not modelled; the page's lower-cased tokens are an input.
- The four `re.findall` currency patterns are not modelled; the list of amounts they find is an input.
- The e-commerce indicator search (`find_all(text=re.compile(...))`) is not modelled; its outcome is a boolean input.
- Digits, `\d` and `str.lower` cover ASCII only, because the pages' non-ASCII digits and letters are not modelled.
- `random.uniform`, `random.getrandbits` and `random.choice` are not modelled. Their values are the `Draw` function `Environment.draws`.
- `datetime.now`, `strftime` and `isoformat` are not modelled. They become the `now` string and the `dateOf` function. The source reads the clock separately for the visitor series (app.py:73), the record's time stamp (app.py:89) and the price history (app.py:218). The model uses one `dateOf` for both date series, so it does not capture a day boundary passing between those readings.
- ScrapeProducts.PriceHistory: the ±10 % variation and its rounding to cents are not modelled; the price d days ago is the function `drift(k, d)`. The shape, the dates, the copied id and name and today's price are modelled.
- Python and JavaScript floating point is modelled by exact reals. That covers `round(…, 1)`, `round(…, 2)` and `float` of a long digit string.
- The `ValueError` branch of `float(price_match.group(1))` and the `f"Product {i+1}"` name cannot be reached, so both are left out. Every regex match is a valid float, and the heading loop only runs while i < len(potential_names).
- Categories that are names of `Object.prototype` members are not modelled.
  - With "toString" or "constructor", `categories[c]` is an inherited function. The first product stores `NaN` and the next resets it to 1.
  - "__proto__" never becomes an entry.
  - `colors[c] || colors.Other` returns the inherited member for such a name, not a colour.
- For categories that look like array indices ("1", "42"), JavaScript's `Object.entries` lists them first. The model keeps first-occurrence order for every category.
- The backend's categories are never numeric and never prototype names.
- The formatted text is not modelled: `toFixed`, `toLocaleString`, the CSS `conic-gradient(...)` string and the SVG path string. Slices, points and commands are modelled as values.
- `NaN` and `Infinity` results of the unguarded divisions are not modelled. They are preconditions of the modelled functions: ChartMath.Percent, ChartMath.Scaled, ChartMath.Max, ProductCharts.XOf, DashboardCharts.LinkPie, DashboardCharts.WordTable and ProductCharts.PriceBarWidths.
- ScrapeWords.SortByCount: the choice among entries with equal counts is not shown to match `most_common`'s insertion-order tie-break. The ordering, the counts and the permutation are proved.
- ScrapeProducts.SampleFallback: states one direction of each case only. Headings could hold exactly the sample names with the sample prices, so "the result is the samples" does not imply that the fallback branch ran.
- The dashboard is modelled as rendered with the `user` and `setUser` props that `ScrapingDashboard` requires (dashboard.js:5, 220, 72). Its only caller, frontend/src/App.js:22, renders `<ScrapingDashboard />` without either, which the model does not capture.
  - Then `user.photoURL` throws on the first render.
  - `setUser(null)` would throw inside `handleLogout`'s `try`, skipping the redirect.
- `localStorage.removeItem` and `setUser(null)` are modelled by the `user` field becoming `None`. The `window.location.href` redirect is modelled by the `location` field becoming `"/"`.
- The mount-time `checkAuthStatus` effect and `handleLogin` have empty bodies and are modelled as changing nothing. The OAuth flow in their comments is not code.
- The interleaving of React renders and of several outstanding requests is not modelled. At most one request is in flight, because the submit button is disabled while loading, and `DashboardView.Enabled` encodes that.
- The card lists of each view and the `MetricsCard` and `ProductList` markup are not modelled. They only display fields of the record.
- The other components are not part of this model: `frontpage.js`, `profile.js`, `Loader.js` and `App.js`.

## Findings

| source | as written | input that shows it | evidently intended | confidence | as-written member | corrected member |
|---|---|---|---|---|---|---|
| frontend/src/components/dashboard.js:95 | `handleSubmit` stores any parsed response body with `setData`, including the backend's 500 body `{status, message}`. The results panel (lines 333-336) then reads `data.pageInfo.title` of that body | submit a URL whose fetch fails, e.g. `https://nonexistent.invalid` | keep the previous data unless a scrape result arrives; an error only ends loading | not executed | DashboardView.ErrorBodyReachesResults | DashboardView.ErrorBodyKeepsData |

`DashboardView.SettleAsWritten` is the completion as written.
- `DashboardView.Step` and the `Dashboard` class use it.
- `DashboardView.SubmitSpec` and `DashboardView.StepConsistentUnlessErrorBody` state what it does.

`DashboardView.Settle` is the corrected completion.
- `DashboardView.StepCorrected` uses it.
- `DashboardView.SubmitSpecCorrected`, `DashboardView.StepConsistent` and `DashboardView.ErrorBodyKeepsData` prove that under it the stored data is always a scrape result.
