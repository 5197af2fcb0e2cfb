/** Product extraction in backend/app.py: reading a price out of a text with the
    regular expression `(\d+\.\d+|\d+)`, the "in stock" test, the three ways
    `extract_products` assembles its list (sample data, product containers,
    headings), and the simulated 31-day price history. What BeautifulSoup and
    the regular-expression searches of the page would find is given as input. */
module ScrapeProducts {
  import opened Wrappers
  import opened Text
  import opened ChartMath
  import opened ScrapeModel

  // ---------------------------------------------------------------------------
  // Reading a price: re.search(r'(\d+\.\d+|\d+)', text) and float(...)

  predicate IsDigit(c: char) {
    '0' <= c <= '9'
  }

  predicate AllDigits(t: string) {
    forall k | 0 <= k < |t| :: IsDigit(t[k])
  }

  /** End of the maximal run of digits starting at i. */
  function RunEnd(s: string, i: nat): (j: nat)
    requires i <= |s|
    ensures i <= j <= |s|
    ensures forall k | i <= k < j :: IsDigit(s[k])
    ensures j == |s| || !IsDigit(s[j])
    decreases |s| - i
  {
    if i < |s| && IsDigit(s[i]) then RunEnd(s, i + 1) else i
  }

  /** The text the regular expression matches at a digit: the first alternative
      `\d+\.\d+` when a '.' and a digit follow the digit run, else `\d+`. Greedy
      backtracking of the first `\d+` cannot help, since a shorter run is
      followed by a digit, never by '.'. */
  function MatchAt(s: string, i: nat): string
    requires i < |s| && IsDigit(s[i])
  {
    var j := RunEnd(s, i);
    if j + 1 < |s| && s[j] == '.' && IsDigit(s[j + 1]) then s[i..RunEnd(s, j + 1)]
    else s[i..j]
  }

  /** Index of the first digit at or after k. */
  function FirstDigitFrom(s: string, k: nat): (r: Option<nat>)
    requires k <= |s|
    ensures r.Some? ==> k <= r.value < |s| && IsDigit(s[r.value])
    ensures r.Some? ==> forall j | k <= j < r.value :: !IsDigit(s[j])
    ensures r.None? ==> forall j | k <= j < |s| :: !IsDigit(s[j])
    decreases |s| - k
  {
    if k == |s| then None
    else if IsDigit(s[k]) then Some(k)
    else FirstDigitFrom(s, k + 1)
  }

  datatype NumberMatch = NumberMatch(start: nat, text: string)

  /** `re.search(r'(\d+\.\d+|\d+)', s)`: the leftmost match and group 1. */
  function SearchNumber(s: string): Option<NumberMatch> {
    match FirstDigitFrom(s, 0)
    case None => None
    case Some(i) => Some(NumberMatch(i, MatchAt(s, i)))
  }

  /** A text either alternative of the pattern accepts. */
  predicate NumberToken(t: string) {
    || (|t| > 0 && AllDigits(t))
    || exists p | 0 < p < |t| - 1 ::
         t[p] == '.' && AllDigits(t[..p]) && AllDigits(t[p + 1..])
  }

  /** The match at a digit is a number token that no digit follows; it is a
      plain digit run only when no '.' and digit follow that run. */
  lemma MatchAtSpec(s: string, i: nat)
    requires i < |s| && IsDigit(s[i])
    ensures var t := MatchAt(s, i);
      var e := i + |t|;
      && e <= |s| && s[i..e] == t
      && NumberToken(t)
      && (e == |s| || !IsDigit(s[e]))
      && (AllDigits(t) ==> !(e + 1 < |s| && s[e] == '.' && IsDigit(s[e + 1])))
  {
    var j := RunEnd(s, i);
    if j + 1 < |s| && s[j] == '.' && IsDigit(s[j + 1]) {
      DecimalMatch(s, i);
    } else {
      DigitMatch(s, i);
    }
  }

  /** A digit starts a run of at least one digit. */
  lemma RunEndPast(s: string, i: nat)
    requires i < |s| && IsDigit(s[i])
    ensures RunEnd(s, i) > i
  {
    assert RunEnd(s, i) == RunEnd(s, i + 1);
  }

  /** Without a '.' and a digit after the run, the match is the digit run. */
  lemma DigitMatch(s: string, i: nat)
    requires i < |s| && IsDigit(s[i])
    requires !(RunEnd(s, i) + 1 < |s| && s[RunEnd(s, i)] == '.' && IsDigit(s[RunEnd(s, i) + 1]))
    ensures var t := MatchAt(s, i);
      var e := i + |t|;
      && e == RunEnd(s, i) && s[i..e] == t
      && |t| > 0 && AllDigits(t)
  {
    RunEndPast(s, i);
    DigitSlice(s, i, RunEnd(s, i));
  }

  /** With a '.' and a digit after the run, the match is the decimal number. */
  lemma DecimalMatch(s: string, i: nat)
    requires i < |s| && IsDigit(s[i])
    requires RunEnd(s, i) + 1 < |s| && s[RunEnd(s, i)] == '.' && IsDigit(s[RunEnd(s, i) + 1])
    ensures var t := MatchAt(s, i);
      var e := i + |t|;
      && e == RunEnd(s, RunEnd(s, i) + 1) && s[i..e] == t
      && NumberToken(t) && !AllDigits(t)
  {
    var j := RunEnd(s, i);
    var e := RunEnd(s, j + 1);
    RunEndPast(s, i);
    RunEndPast(s, j + 1);
    var t := s[i..e];
    assert MatchAt(s, i) == t;
    var p := j - i;
    assert t[p] == s[j] == '.';
    assert t[..p] == s[i..j];
    assert t[p + 1..] == s[j + 1..e];
    DigitSlice(s, i, j);
    DigitSlice(s, j + 1, e);
    assert 0 < p < |t| - 1 && t[p] == '.' && AllDigits(t[..p]) && AllDigits(t[p + 1..]);
  }

  /** A stretch of digits is a digit text. */
  lemma DigitSlice(s: string, a: nat, b: nat)
    requires a <= b <= |s| && forall k | a <= k < b :: IsDigit(s[k])
    ensures AllDigits(s[a..b])
  {
    assert forall k | 0 <= k < b - a :: s[a..b][k] == s[a + k];
  }

  /** The search fails exactly when the text has no digit. Otherwise the match
      starts at the first digit, is a number token, is not followed by a digit,
      and is a plain digit run only when no '.' and digit follow it (the
      decimal alternative is tried first). */
  lemma SearchNumberSpec(s: string)
    ensures SearchNumber(s).None? <==> forall k | 0 <= k < |s| :: !IsDigit(s[k])
    ensures SearchNumber(s).Some? ==>
      var m := SearchNumber(s).value;
      var e := m.start + |m.text|;
      && m.start < |s| && IsDigit(s[m.start])
      && (forall k | 0 <= k < m.start :: !IsDigit(s[k]))
      && e <= |s| && s[m.start..e] == m.text
      && NumberToken(m.text)
      && (e == |s| || !IsDigit(s[e]))
      && (AllDigits(m.text) ==> !(e + 1 < |s| && s[e] == '.' && IsDigit(s[e + 1])))
  {
    match FirstDigitFrom(s, 0)
    case None =>
    case Some(i) =>
      MatchAtSpec(s, i);
  }

  function DigitValue(c: char): nat {
    if IsDigit(c) then c as int - '0' as int else 0
  }

  /** The decimal value of a run of digits. */
  function DigitsValue(t: string): nat {
    if t == [] then 0 else 10 * DigitsValue(t[..|t| - 1]) + DigitValue(t[|t| - 1])
  }

  function Pow10(n: nat): (r: nat)
    ensures r >= 1
  {
    if n == 0 then 1 else 10 * Pow10(n - 1)
  }

  /** The value of the decimal numeral with integer digits a and fraction digits b. */
  function Decimal(a: string, b: string): (v: real)
    ensures v >= 0.0
  {
    DigitsValue(a) as real + DigitsValue(b) as real / Pow10(|b|) as real
  }

  /** `float(t)` of a number token, as an exact real. */
  function NumberValue(t: string): (v: real)
    ensures v >= 0.0
  {
    match Find(t, ".")
    case None => DigitsValue(t) as real
    case Some(p) => Decimal(t[..p], t[p + 1..])
  }

  /** The price of a product card, from the text of its price element if it has
      one: the first number in the stripped text, or 0.0. */
  function PriceFromText(priceText: Option<string>): (p: real)
    ensures p >= 0.0
  {
    match priceText
    case None => 0.0
    case Some(t) =>
      match SearchNumber(Strip(t))
      case None => 0.0
      case Some(m) => NumberValue(m.text)
  }

  /** A price text without any digit leaves the price at 0.0. */
  lemma PriceWithoutDigits(t: string)
    requires forall k | 0 <= k < |t| :: !IsDigit(t[k])
    ensures PriceFromText(Some(t)) == 0.0
  {
    var s := Strip(t);
    var a, b :| 0 <= a <= b <= |t| && s == t[a..b];
    forall k | 0 <= k < |s| ensures !IsDigit(s[k]) {
      assert s[k] == t[a + k];
    }
    assert FirstDigitFrom(s, 0).None?;
  }

  lemma NoDotInDigits(a: string)
    requires AllDigits(a)
    ensures Find(a, ".").None?
  {
    forall j ensures !OccursAt(a, ".", j) {
      if 0 <= j && j + 1 <= |a| {
        assert a[j..j + 1][0] == a[j];
      }
    }
  }

  /** A digit run is read as the integer it denotes. */
  lemma IntegerValue(a: string)
    requires AllDigits(a)
    ensures NumberValue(a) == DigitsValue(a) as real
  {
    NoDotInDigits(a);
  }

  /** In a.b with a digit run a, the first '.' is the one after a. */
  lemma DotPosition(a: string, b: string)
    requires AllDigits(a)
    ensures Find(a + "." + b, ".") == Some(|a|)
  {
    var t := a + "." + b;
    assert t[|a|..|a| + 1] == ".";
    forall j | 0 <= j < |a| ensures !OccursAt(t, ".", j) {
      assert t[j..j + 1][0] == t[j] == a[j];
    }
    FindIs(t, ".", |a|);
  }

  /** A decimal token a.b is read as a + b / 10^|b|. */
  lemma DecimalValue(a: string, b: string)
    requires AllDigits(a) && AllDigits(b)
    ensures NumberValue(a + "." + b) == Decimal(a, b)
  {
    var t := a + "." + b;
    DotPosition(a, b);
    assert t[..|a|] == a;
    assert t[|a| + 1..] == b;
  }

  // ---------------------------------------------------------------------------
  // "in stock"

  /** `"in stock" in text.lower()` */
  predicate InStockText(text: string) {
    Contains(Lower(text), "in stock")
  }

  /** The stock flag of a product card: the text test when the card has a stock
      element, otherwise the random bit drawn for it. */
  function StockFlag(stockText: Option<string>, coin: bool): (b: bool)
    ensures stockText.Some? ==> (b <==> exists i :: OccursAt(Lower(stockText.value), "in stock", i))
    ensures stockText.None? ==> b == coin
  {
    match stockText
    case None => coin
    case Some(t) =>
      ContainsIff(Lower(t), "in stock");
      InStockText(t)
  }

  /** The test is a substring test, so a text saying "Not in stock" counts as in stock. */
  lemma NotInStockCountsAsInStock()
    ensures InStockText("Not in stock")
  {
    var l := Lower("Not in stock");
    assert l == "not in stock";
    assert OccursAt(l, "in stock", 4);
  }

  // ---------------------------------------------------------------------------
  // extract_products

  /** The random values drawn for one product: `round(random.uniform(3.0, 5.0), 1)`,
      `bool(random.getrandbits(1))`, `round(random.uniform(9.99, 99.99), 2)` and
      `random.choice([...])`. */
  datatype Draw = Draw(rating: real, coin: bool, price: real, category: string)

  const FallbackCategories: seq<string> := ["Electronics", "Clothing", "Home", "Books", "Beauty"]

  /** What the random calls can return. */
  predicate ValidDraw(d: Draw) {
    && 3.0 <= d.rating <= 5.0
    && 9.99 <= d.price <= 99.99
    && d.category in FallbackCategories
  }

  /** The five sample products returned for pages without products. */
  const SampleProducts: seq<Product> := [
    Product(1, "Sample Product 1", 19.99, "Electronics", 4.5, true),
    Product(2, "Sample Product 2", 29.99, "Clothing", 3.8, true),
    Product(3, "Sample Product 3", 9.99, "Books", 4.2, false),
    Product(4, "Sample Product 4", 49.99, "Home", 4.7, true),
    Product(5, "Sample Product 5", 15.99, "Beauty", 3.5, true)
  ]

  /** The texts of one product container's name, price and stock elements
      (`select_one(...).get_text()`), None when the element is missing. */
  datatype Container = Container(nameText: Option<string>, priceText: Option<string>, stockText: Option<string>)

  /** Product number i + 1, read from a product container. */
  function ContainerProduct(i: nat, c: Container, d: Draw): Product {
    Product(
      i + 1,
      match c.nameText case None => "Unknown Product" case Some(t) => Strip(t),
      PriceFromText(c.priceText),
      "Unknown",
      d.rating,
      StockFlag(c.stockText, d.coin))
  }

  /** `[h.get_text().strip() for h in headings if 5 < len(h.get_text().strip()) < 100]` */
  function PotentialNames(headings: seq<string>): (names: seq<string>)
    ensures |names| <= |headings|
    ensures forall k | 0 <= k < |names| :: 5 < |names[k]| < 100
  {
    if headings == [] then []
    else
      var n := Strip(headings[|headings| - 1]);
      PotentialNames(headings[..|headings| - 1]) + (if 5 < |n| < 100 then [n] else [])
  }

  /** Every offered name is the stripped text of some heading. */
  lemma {:induction false} PotentialNameSource(headings: seq<string>, x: string)
    requires x in PotentialNames(headings)
    ensures exists k | 0 <= k < |headings| :: Strip(headings[k]) == x
  {
    var p := headings[..|headings| - 1];
    var n := Strip(headings[|headings| - 1]);
    if x in PotentialNames(p) {
      PotentialNameSource(p, x);
      var k :| 0 <= k < |p| && Strip(p[k]) == x;
      assert headings[k] == p[k];
    } else {
      assert x == n;
    }
  }

  /** Every heading whose stripped text has between 6 and 99 characters is offered. */
  lemma {:induction false} PotentialNameKept(headings: seq<string>, k: nat)
    requires k < |headings| && 5 < |Strip(headings[k])| < 100
    ensures Strip(headings[k]) in PotentialNames(headings)
  {
    var p := headings[..|headings| - 1];
    if k < |p| {
      assert headings[k] == p[k];
      PotentialNameKept(p, k);
    }
  }

  /** Product number i + 1, made from the i-th heading name. */
  function HeadingProduct(i: nat, names: seq<string>, foundPrices: seq<real>, d: Draw): Product
    requires i < |names|
  {
    Product(
      i + 1,
      names[i],
      if i < |foundPrices| then foundPrices[i] else d.price,
      d.category,
      d.rating,
      d.coin)
  }

  /** The products read from the first ten containers. */
  function ContainerProducts(containers: seq<Container>, draws: nat -> Draw): (r: seq<Product>)
    ensures |r| == Min(10, |containers|)
    ensures forall i | 0 <= i < |r| :: r[i] == ContainerProduct(i, containers[i], draws(i))
  {
    seq(Min(10, |containers|), i requires 0 <= i < Min(10, |containers|) =>
      ContainerProduct(i, containers[i], draws(i)))
  }

  /** The products made from the first five heading names. */
  function HeadingProducts(names: seq<string>, foundPrices: seq<real>, draws: nat -> Draw): (r: seq<Product>)
    ensures |r| == Min(5, |names|)
    ensures forall i | 0 <= i < |r| :: r[i] == HeadingProduct(i, names, foundPrices, draws(i))
  {
    seq(Min(5, |names|), i requires 0 <= i < Min(5, |names|) =>
      HeadingProduct(i, names, foundPrices, draws(i)))
  }

  /** The products `extract_products` returns. isEcommerce is the outcome of
      the indicator search, containers the matches of the product selector,
      headings the texts of the h1/h2/h3 elements, foundPrices the currency
      amounts found in the page text, and draws(i) the random values used for
      the product at index i. */
  function Extracted(isEcommerce: bool, containers: seq<Container>, headings: seq<string>,
                     foundPrices: seq<real>, draws: nat -> Draw): seq<Product>
  {
    if !isEcommerce then SampleProducts
    else if |containers| > 0 then ContainerProducts(containers, draws)
    else if PotentialNames(headings) == [] then SampleProducts
    else HeadingProducts(PotentialNames(headings), foundPrices, draws)
  }

  /** The list is never empty, holds at most ten products, and numbers them
      1, 2, ... in order. */
  lemma ExtractedShape(isEcommerce: bool, containers: seq<Container>, headings: seq<string>,
                       foundPrices: seq<real>, draws: nat -> Draw)
    ensures var r := Extracted(isEcommerce, containers, headings, foundPrices, draws);
      && 0 < |r| <= 10
      && forall i | 0 <= i < |r| :: r[i].id == i + 1
  {
  }

  /** The container path: the first min(10, n) containers, in order, each named
      after its name element (or "Unknown Product"), category "Unknown". */
  lemma ContainerPath(containers: seq<Container>, headings: seq<string>,
                      foundPrices: seq<real>, draws: nat -> Draw)
    requires |containers| > 0
    ensures var r := Extracted(true, containers, headings, foundPrices, draws);
      && |r| == Min(10, |containers|)
      && forall i | 0 <= i < |r| ::
        && r[i].category == "Unknown"
        && r[i].price == PriceFromText(containers[i].priceText)
        && r[i].name == (if containers[i].nameText.None? then "Unknown Product"
                         else Strip(containers[i].nameText.value))
        && (containers[i].stockText.Some? ==> r[i].inStock == InStockText(containers[i].stockText.value))
  {
  }

  /** The heading path: min(5, m) products for the m acceptable headings; the
      i-th takes the i-th name and the i-th price found, if there is one. */
  lemma HeadingPath(headings: seq<string>, foundPrices: seq<real>, draws: nat -> Draw)
    requires PotentialNames(headings) != []
    ensures var r := Extracted(true, [], headings, foundPrices, draws);
      && |r| == Min(5, |PotentialNames(headings)|)
      && forall i | 0 <= i < |r| ::
        && r[i].name == PotentialNames(headings)[i]
        && 5 < |r[i].name| < 100
        && (i < |foundPrices| ==> r[i].price == foundPrices[i])
  {
  }

  /** Sample data is the answer when the page is no shop, or when it is one
      without product containers and without acceptable headings; a page with
      product containers never gets it. */
  lemma SampleFallback(isEcommerce: bool, containers: seq<Container>, headings: seq<string>,
                       foundPrices: seq<real>, draws: nat -> Draw)
    ensures !isEcommerce || (containers == [] && PotentialNames(headings) == []) ==>
      Extracted(isEcommerce, containers, headings, foundPrices, draws) == SampleProducts
    ensures isEcommerce && containers != [] ==>
      Extracted(isEcommerce, containers, headings, foundPrices, draws) != SampleProducts
  {
    if isEcommerce && containers != [] {
      var r := Extracted(isEcommerce, containers, headings, foundPrices, draws);
      assert r[0].category == "Unknown";
      assert SampleProducts[0].category == "Electronics";
    }
  }

  /** With genuine random values and non-negative prices found, every product
      has a non-negative price and a rating between 3 and 5. */
  lemma ExtractedBounds(isEcommerce: bool, containers: seq<Container>, headings: seq<string>,
                        foundPrices: seq<real>, draws: nat -> Draw)
    requires forall i :: ValidDraw(draws(i))
    requires forall k | 0 <= k < |foundPrices| :: foundPrices[k] >= 0.0
    ensures var r := Extracted(isEcommerce, containers, headings, foundPrices, draws);
      forall i | 0 <= i < |r| :: r[i].price >= 0.0 && 3.0 <= r[i].rating <= 5.0
  {
  }

  /** The loop over the first ten product containers. */
  method CollectContainers(containers: seq<Container>, draws: nat -> Draw) returns (products: seq<Product>)
    ensures products == ContainerProducts(containers, draws)
  {
    products := [];
    var limit := Min(10, |containers|);
    var i := 0;
    while i < limit
      invariant 0 <= i <= limit
      invariant products == ContainerProducts(containers, draws)[..i]
    {
      assert ContainerProducts(containers, draws)[..i + 1]
        == ContainerProducts(containers, draws)[..i] + [ContainerProduct(i, containers[i], draws(i))];
      products := products + [ContainerProduct(i, containers[i], draws(i))];
      i := i + 1;
    }
    assert ContainerProducts(containers, draws)[..i] == ContainerProducts(containers, draws);
  }

  /** The loop over the first five heading names. */
  method CollectHeadings(names: seq<string>, foundPrices: seq<real>, draws: nat -> Draw)
    returns (products: seq<Product>)
    ensures products == HeadingProducts(names, foundPrices, draws)
  {
    products := [];
    var limit := Min(5, |names|);
    var i := 0;
    while i < limit
      invariant 0 <= i <= limit
      invariant products == HeadingProducts(names, foundPrices, draws)[..i]
    {
      assert HeadingProducts(names, foundPrices, draws)[..i + 1]
        == HeadingProducts(names, foundPrices, draws)[..i] + [HeadingProduct(i, names, foundPrices, draws(i))];
      products := products + [HeadingProduct(i, names, foundPrices, draws(i))];
      i := i + 1;
    }
    assert HeadingProducts(names, foundPrices, draws)[..i] == HeadingProducts(names, foundPrices, draws);
  }

  /** `extract_products`: the container loop, then the heading loop when it
      found nothing, then the sample data. */
  method ExtractProducts(isEcommerce: bool, containers: seq<Container>, headings: seq<string>,
                         foundPrices: seq<real>, draws: nat -> Draw)
    returns (products: seq<Product>)
    ensures products == Extracted(isEcommerce, containers, headings, foundPrices, draws)
    ensures 0 < |products| <= 10
    ensures forall i | 0 <= i < |products| :: products[i].id == i + 1
  {
    ExtractedShape(isEcommerce, containers, headings, foundPrices, draws);
    if !isEcommerce {
      return SampleProducts;
    }
    products := [];
    if |containers| > 0 {
      products := CollectContainers(containers, draws);
    }
    if products == [] {
      var names := PotentialNames(headings);
      products := CollectHeadings(names, foundPrices, draws);
      if products == [] {
        products := SampleProducts;
      }
    }
  }

  // ---------------------------------------------------------------------------
  // generate_price_history

  /** The history of product number k: 31 daily points from 30 days ago to
      today. dateOf(i) is the date i days ago and drift(k, i) the rounded random
      price drawn for that product and day; today's point keeps the product's
      price. */
  function SeriesOf(k: nat, p: Product, dateOf: nat -> string, drift: (nat, nat) -> real): PriceSeries {
    PriceSeries(p.id, p.name,
      seq(31, j requires 0 <= j < 31 =>
        PricePoint(dateOf(30 - j), if 30 - j > 0 then drift(k, 30 - j) else p.price)))
  }

  /** The history holds one series per product, in product order, each with 31
      points dated from 30 days ago to today; the last point has the product's
      own price and the id and name are copied. */
  lemma HistoryShape(products: seq<Product>, k: nat, dateOf: nat -> string, drift: (nat, nat) -> real)
    requires k < |products|
    ensures var h := PriceHistory(products, dateOf, drift)[k];
      && h.productId == products[k].id
      && h.productName == products[k].name
      && |h.priceData| == 31
      && h.priceData[30].price == products[k].price
      && forall j | 0 <= j < 31 :: h.priceData[j].date == dateOf(30 - j)
  {
  }

  /** The histories of all products, in product order. */
  function PriceHistory(products: seq<Product>, dateOf: nat -> string, drift: (nat, nat) -> real): (h: seq<PriceSeries>)
    ensures |h| == |products|
  {
    seq(|products|, k requires 0 <= k < |products| => SeriesOf(k, products[k], dateOf, drift))
  }

  /** `generate_price_history`: the outer loop over the products, the inner
      loop over `range(30, -1, -1)`. drift(k, i) is the price drawn for product
      k, i days ago. */
  method GeneratePriceHistory(products: seq<Product>, dateOf: nat -> string, drift: (nat, nat) -> real)
    returns (history: seq<PriceSeries>)
    ensures history == PriceHistory(products, dateOf, drift)
  {
    history := [];
    var k := 0;
    while k < |products|
      invariant 0 <= k <= |products|
      invariant |history| == k
      invariant forall m | 0 <= m < k :: history[m] == SeriesOf(m, products[m], dateOf, drift)
    {
      var product := products[k];
      var points: seq<PricePoint> := [];
      var i := 30;
      while i >= 0
        invariant -1 <= i <= 30
        invariant |points| == 30 - i
        invariant forall j | 0 <= j < |points| ::
          points[j] == PricePoint(dateOf(30 - j), if 30 - j > 0 then drift(k, 30 - j) else product.price)
      {
        var price := if i > 0 then drift(k, i) else product.price;
        points := points + [PricePoint(dateOf(i), price)];
        i := i - 1;
      }
      history := history + [PriceSeries(product.id, product.name, points)];
      assert history[k] == SeriesOf(k, product, dateOf, drift);
      k := k + 1;
    }
  }
}
