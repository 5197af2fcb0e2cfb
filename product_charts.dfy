/** The chart data that frontend/src/components/Product.js derives from the
    products and price histories: category counts and the pie's conic-gradient
    slices, the five price buckets and their bars, the rating stars, and the
    geometry of the price-history line. Colours and slice percentages are
    modelled; the CSS text built from them is not. */
module ProductCharts {
  import opened Wrappers
  import opened Tally
  import opened ChartMath
  import opened ScrapeModel

  // ---------------------------------------------------------------------------
  // CategoryDistribution: counting products per category

  datatype CategoryCount = CategoryCount(category: string, count: nat)

  function Categories(products: seq<Product>): (cs: seq<string>)
    ensures |cs| == |products|
    ensures forall i | 0 <= i < |products| :: cs[i] == products[i].category
  {
    seq(|products|, i requires 0 <= i < |products| => products[i].category)
  }

  /** `Object.entries(categories)`: each category once, in order of first
      occurrence, with its number of products. */
  function CategoryData(products: seq<Product>): (data: seq<CategoryCount>)
    ensures |data| == |Distinct(Categories(products))|
  {
    var cs := Categories(products);
    var d := Distinct(cs);
    seq(|d|, i requires 0 <= i < |d| => CategoryCount(d[i], Occ(cs, d[i])))
  }

  function Counts(data: seq<CategoryCount>): (c: seq<nat>)
    ensures |c| == |data|
    ensures forall i | 0 <= i < |data| :: c[i] == data[i].count
  {
    seq(|data|, i requires 0 <= i < |data| => data[i].count)
  }

  /** keys and counts describe the `categories` object after the products
      whose categories are in prefix. */
  ghost predicate Tallied(prefix: seq<string>, keys: seq<string>, counts: map<string, nat>) {
    && keys == Distinct(prefix)
    && counts.Keys == set k | k in keys
    && (forall k | k in counts :: counts[k] == Occ(prefix, k))
  }

  /** One step of the forEach: increment a known category, or create it with 1. */
  lemma TallyStep(prefix: seq<string>, c: string, keys: seq<string>, counts: map<string, nat>)
    requires Tallied(prefix, keys, counts)
    ensures c in counts ==> Tallied(prefix + [c], keys, counts[c := counts[c] + 1])
    ensures c !in counts ==> Tallied(prefix + [c], keys + [c], counts[c := 1])
  {
    assert (prefix + [c])[..|prefix|] == prefix;
    DistinctElements(prefix);
    forall k ensures Occ(prefix + [c], k) == Occ(prefix, k) + (if c == k then 1 else 0) {
      OccSnoc(prefix, c, k);
    }
    if c !in counts {
      OccPositive(prefix, c);
    }
  }

  /** The `products.forEach` loop filling the `categories` object, followed by
      `Object.entries`. keys records the order in which the object's keys were
      created. For a category that is not the name of an `Object.prototype`
      member, a present key holds a count of at least 1 and an absent key
      reads `undefined`, so the truthiness test `categories[c]` is a
      membership test; categories such as "toString", "constructor" or
      "__proto__" are not modelled. */
  method CountCategories(products: seq<Product>) returns (data: seq<CategoryCount>)
    ensures data == CategoryData(products)
  {
    var cs := Categories(products);
    var keys: seq<string> := [];
    var counts: map<string, nat> := map[];
    for i := 0 to |products|
      invariant Tallied(cs[..i], keys, counts)
    {
      var c := products[i].category;
      assert cs[..i + 1] == cs[..i] + [c];
      TallyStep(cs[..i], c, keys, counts);
      if c in counts {
        counts := counts[c := counts[c] + 1];
      } else {
        counts := counts[c := 1];
        keys := keys + [c];
      }
    }
    assert cs[..|products|] == cs;
    assert forall j | 0 <= j < |keys| :: keys[j] in counts;
    data := seq(|keys|, j requires 0 <= j < |keys| => CategoryCount(keys[j], counts[keys[j]]));
    assert forall j | 0 <= j < |keys| :: data[j] == CategoryData(products)[j];
  }

  /** Each category of the products appears exactly once, with the number of
      products that have it. */
  lemma CategoryMembers(products: seq<Product>)
    ensures var data := CategoryData(products);
      && (forall i | 0 <= i < |data| ::
            data[i].category in Categories(products)
            && data[i].count == Occ(Categories(products), data[i].category)
            && data[i].count > 0)
      && (forall i, j | 0 <= i < j < |data| :: data[i].category != data[j].category)
      && (forall k | 0 <= k < |products| :: exists i | 0 <= i < |data| :: data[i].category == products[k].category)
  {
    var cs := Categories(products);
    var data := CategoryData(products);
    DistinctElements(cs);
    forall i | 0 <= i < |data|
      ensures data[i].category in cs && data[i].count > 0
    {
      OccPositive(cs, data[i].category);
    }
    forall k | 0 <= k < |products|
      ensures exists i | 0 <= i < |data| :: data[i].category == products[k].category
    {
      assert cs[k] in Distinct(cs);
      var i :| 0 <= i < |Distinct(cs)| && Distinct(cs)[i] == cs[k];
      assert data[i].category == products[k].category;
    }
  }

  lemma {:induction false} SumOfOccurrences(d: seq<string>, s: seq<string>)
    ensures Sum(seq(|d|, i requires 0 <= i < |d| => Occ(s, d[i]))) == SumOcc(d, s)
  {
    if d != [] {
      var p := d[..|d| - 1];
      SumOfOccurrences(p, s);
      var q := seq(|d|, i requires 0 <= i < |d| => Occ(s, d[i]));
      assert q[..|d| - 1] == seq(|p|, i requires 0 <= i < |p| => Occ(s, p[i]));
    }
  }

  /** The counts add up to `total = products.length`. */
  lemma CategoryTotal(products: seq<Product>)
    ensures Sum(Counts(CategoryData(products))) == |products|
  {
    var cs := Categories(products);
    var d := Distinct(cs);
    assert Counts(CategoryData(products)) == seq(|d|, i requires 0 <= i < |d| => Occ(cs, d[i]));
    SumOfOccurrences(d, cs);
    SumOccDistinct(cs);
  }

  /** The categories are listed in the order in which they first occur among
      the products. (Object.entries lists integer-like keys first, in numeric
      order; category names are not of that form.) */
  lemma CategoryOrder(products: seq<Product>)
    ensures var data := CategoryData(products);
      forall i, j | 0 <= i < j < |data| ::
        data[i].category in Categories(products) && data[j].category in Categories(products) &&
        FirstIndex(Categories(products), data[i].category) < FirstIndex(Categories(products), data[j].category)
  {
    var cs := Categories(products);
    var data := CategoryData(products);
    DistinctOrder(cs);
    forall i, j | 0 <= i < j < |data|
      ensures data[i].category in cs && data[j].category in cs
      ensures FirstIndex(cs, data[i].category) < FirstIndex(cs, data[j].category)
    {
      assert data[i].category == Distinct(cs)[i];
      assert data[j].category == Distinct(cs)[j];
    }
  }

  // ---------------------------------------------------------------------------
  // Colours

  /** The `colors` object. */
  const Palette: map<string, string> := map[
    "Electronics" := "#3b82f6",
    "Clothing" := "#f97316",
    "Home" := "#10b981",
    "Books" := "#8b5cf6",
    "Beauty" := "#ec4899",
    "Other" := "#6b7280"]

  const OtherColor := "#6b7280"

  /** `colors[category] || colors.Other` */
  function ColorOf(category: string): (c: string)
    ensures c in Palette.Values
    ensures category in Palette ==> c == Palette[category]
    ensures category !in Palette ==> c == OtherColor
  {
    assert Palette["Other"] == OtherColor;
    if category in Palette then Palette[category] else OtherColor
  }

  // ---------------------------------------------------------------------------
  // createConicGradient

  /** One colour band of the pie: from start% to end%. */
  datatype Slice = Slice(color: string, start: real, end: real)

  /** Where band i starts: the percentage of all counts before it. */
  function Boundary(counts: seq<nat>, i: nat, total: nat): real
    requires i <= |counts| && total > 0
  {
    Percent(Sum(counts[..i]), total)
  }

  /** The bands of the gradient, one per entry, in input order. */
  function GradientSlices(data: seq<CategoryCount>): (s: seq<Slice>)
    requires Sum(Counts(data)) > 0
    ensures |s| == |data|
  {
    var c := Counts(data);
    var t := Sum(c);
    seq(|data|, i requires 0 <= i < |data| =>
      Slice(ColorOf(data[i].category), Boundary(c, i, t), Boundary(c, i + 1, t)))
  }

  lemma BoundaryStep(counts: seq<nat>, i: nat, total: nat)
    requires i < |counts| && total > 0
    ensures Boundary(counts, i + 1, total) == Boundary(counts, i, total) + Percent(counts[i], total)
  {
    SumPrefixStep(counts, i);
    PercentAdd(Sum(counts[..i]), counts[i], total);
  }

  /** Band i is as wide as its share of the total and lies within [0%, 100%]. */
  lemma SliceFacts(data: seq<CategoryCount>, i: nat)
    requires Sum(Counts(data)) > 0 && i < |data|
    ensures var s := GradientSlices(data);
      && s[i].end - s[i].start == Percent(data[i].count, Sum(Counts(data)))
      && 0.0 <= s[i].start <= s[i].end <= 100.0
  {
    var c := Counts(data);
    var t := Sum(c);
    BoundaryStep(c, i, t);
    SumPrefixStep(c, i);
    SumPrefixBound(c, i + 1);
    PercentBounds(Sum(c[..i + 1]), t);
    PercentBounds(Sum(c[..i]), t);
    PercentBounds(c[i], t);
  }

  /** The first band starts at 0% and the last ends at 100%. */
  lemma GradientEnds(data: seq<CategoryCount>)
    requires Sum(Counts(data)) > 0
    ensures var s := GradientSlices(data);
      s[0].start == 0.0 && s[|s| - 1].end == 100.0
  {
    var c := Counts(data);
    var t := Sum(c);
    assert c != [];
    assert c[..0] == [];
    assert c[..|c|] == c;
    PercentBounds(t, t);
  }

  /** The pie starts at 0%, each band starts where the previous one ends, band i
      is as wide as its share of the total, and the last band ends at 100%. */
  lemma GradientLayout(data: seq<CategoryCount>)
    requires Sum(Counts(data)) > 0
    ensures var s := GradientSlices(data);
      && s[0].start == 0.0
      && s[|s| - 1].end == 100.0
      && (forall i | 0 <= i < |s| - 1 :: s[i].end == s[i + 1].start)
      && (forall i | 0 <= i < |s| :: s[i].end - s[i].start == Percent(data[i].count, Sum(Counts(data))))
      && (forall i | 0 <= i < |s| :: 0.0 <= s[i].start <= s[i].end <= 100.0)
      && (forall i | 0 <= i < |s| :: s[i].color == ColorOf(data[i].category))
  {
    var s := GradientSlices(data);
    GradientEnds(data);
    forall i | 0 <= i < |s|
      ensures s[i].end - s[i].start == Percent(data[i].count, Sum(Counts(data)))
      ensures 0.0 <= s[i].start <= s[i].end <= 100.0
    {
      SliceFacts(data, i);
    }
  }

  /** The `data.forEach` loop accumulating `currentPercentage`. */
  method ConicGradient(data: seq<CategoryCount>) returns (slices: seq<Slice>)
    requires Sum(Counts(data)) > 0
    ensures slices == GradientSlices(data)
  {
    var c := Counts(data);
    var total := Sum(c);
    var current := 0.0;
    slices := [];
    assert c[..0] == [];
    for i := 0 to |data|
      invariant current == Boundary(c, i, total)
      invariant slices == GradientSlices(data)[..i]
    {
      var percentage := Percent(data[i].count, total);
      BoundaryStep(c, i, total);
      slices := slices + [Slice(ColorOf(data[i].category), current, current + percentage)];
      current := current + percentage;
    }
  }

  /** The pie's CSS background. */
  datatype Background = Placeholder(color: string) | Gradient(slices: seq<Slice>)

  const PlaceholderColor := "#e5e7eb"

  /** `categoryData.length > 0 ? createConicGradient(...) : '#e5e7eb'` */
  function PieBackground(products: seq<Product>): Background {
    var data := CategoryData(products);
    if |data| > 0 then
      CategoryTotal(products);
      Gradient(GradientSlices(data))
    else Placeholder(PlaceholderColor)
  }

  /** The grey placeholder is shown exactly when there are no products;
      otherwise the pie has one band per category and closes at 100%. */
  lemma PieSpec(products: seq<Product>)
    ensures PieBackground(products).Placeholder? <==> products == []
    ensures PieBackground(products).Placeholder? ==> PieBackground(products).color == PlaceholderColor
    ensures products != [] ==>
      var s := PieBackground(products).slices;
      |s| == |CategoryData(products)| && s[0].start == 0.0 && s[|s| - 1].end == 100.0
  {
    CategoryTotal(products);
    if products != [] {
      CategoryMembers(products);
      assert exists i | 0 <= i < |CategoryData(products)| :: CategoryData(products)[i].category == products[0].category;
      GradientLayout(CategoryData(products));
    } else {
      assert Categories(products) == [];
    }
  }

  /** The legend's `Math.round((count / total) * 100)`. */
  function LegendPercent(count: nat, total: nat): int
    requires total > 0
  {
    RoundHalfUp(Percent(count, total))
  }

  /** A legend percentage lies between 0 and 100, and is 100 for a category
      every product has. */
  lemma LegendBounds(count: nat, total: nat)
    requires count <= total && total > 0
    ensures 0 <= LegendPercent(count, total) <= 100
    ensures count == total ==> LegendPercent(count, total) == 100
    ensures count == 0 ==> LegendPercent(count, total) == 0
  {
    PercentBounds(count, total);
  }

  // ---------------------------------------------------------------------------
  // PriceRangeDistribution

  /** One price range [min, max); max None is Infinity. */
  datatype PriceBucket = PriceBucket(min: real, max: Option<real>, caption: string)

  const Buckets: seq<PriceBucket> := [
    PriceBucket(0.0, Some(10.0), "$0-$10"),
    PriceBucket(10.0, Some(25.0), "$10-$25"),
    PriceBucket(25.0, Some(50.0), "$25-$50"),
    PriceBucket(50.0, Some(100.0), "$50-$100"),
    PriceBucket(100.0, None, "$100+")]

  /** `product.price >= range.min && product.price < range.max` */
  predicate InBucket(price: real, b: PriceBucket) {
    price >= b.min && (b.max.None? || price < b.max.value)
  }

  /** The bucket a non-negative price belongs in, by the range boundaries. */
  function BucketIndex(price: real): (i: nat)
    requires price >= 0.0
    ensures i < 5
  {
    if price < 10.0 then 0
    else if price < 25.0 then 1
    else if price < 50.0 then 2
    else if price < 100.0 then 3
    else 4
  }

  /** A non-negative price is in exactly one bucket, a negative price in none,
      and a boundary price is in the upper bucket. */
  lemma BucketOfPrice(price: real)
    ensures forall i | 0 <= i < 5 :: InBucket(price, Buckets[i]) <==> price >= 0.0 && i == BucketIndex(price)
  {
  }

  /** Number of the prices in bucket b. */
  function BucketCount(prices: seq<real>, b: PriceBucket): (n: nat)
    ensures n <= |prices|
  {
    if prices == [] then 0
    else BucketCount(prices[..|prices| - 1], b) + (if InBucket(prices[|prices| - 1], b) then 1 else 0)
  }

  function Prices(products: seq<Product>): (ps: seq<real>)
    ensures |ps| == |products|
    ensures forall i | 0 <= i < |products| :: ps[i] == products[i].price
  {
    seq(|products|, i requires 0 <= i < |products| => products[i].price)
  }

  /** `rangeCounts`: the number of products in each bucket. */
  function BucketCounts(products: seq<Product>): (c: seq<nat>)
    ensures |c| == 5
  {
    seq(5, i requires 0 <= i < 5 => BucketCount(Prices(products), Buckets[i]))
  }

  function NonNegative(prices: seq<real>): nat {
    if prices == [] then 0
    else NonNegative(prices[..|prices| - 1]) + (if prices[|prices| - 1] >= 0.0 then 1 else 0)
  }

  lemma SumOfFive(c: seq<nat>)
    requires |c| == 5
    ensures Sum(c) == c[0] + c[1] + c[2] + c[3] + c[4]
  {
    assert c[..0] == [];
    SumPrefixStep(c, 0);
    SumPrefixStep(c, 1);
    SumPrefixStep(c, 2);
    SumPrefixStep(c, 3);
    SumPrefixStep(c, 4);
    assert c[..5] == c;
  }

  lemma {:induction false} BucketTotal(prices: seq<real>)
    ensures BucketCount(prices, Buckets[0]) + BucketCount(prices, Buckets[1]) + BucketCount(prices, Buckets[2])
      + BucketCount(prices, Buckets[3]) + BucketCount(prices, Buckets[4]) == NonNegative(prices)
  {
    if prices != [] {
      BucketTotal(prices[..|prices| - 1]);
      BucketOfPrice(prices[|prices| - 1]);
    }
  }

  /** The bucket counts add up to the number of products priced at 0 or more. */
  lemma BucketCountsTotal(products: seq<Product>)
    ensures Sum(BucketCounts(products)) == NonNegative(Prices(products))
  {
    SumOfFive(BucketCounts(products));
    BucketTotal(Prices(products));
  }

  lemma {:induction false} NonNegativeIff(prices: seq<real>)
    ensures NonNegative(prices) > 0 <==> exists i | 0 <= i < |prices| :: prices[i] >= 0.0
  {
    if prices != [] {
      var p := prices[..|prices| - 1];
      NonNegativeIff(p);
      assert forall i | 0 <= i < |p| :: p[i] == prices[i];
      if prices[|prices| - 1] < 0.0 && exists i | 0 <= i < |prices| :: prices[i] >= 0.0 {
        var i :| 0 <= i < |prices| && prices[i] >= 0.0;
        assert p[i] >= 0.0;
      }
    }
  }

  /** The bar widths `(range.count / maxCount) * 100` are defined (maxCount > 0)
      exactly when some product is priced at 0 or more. */
  lemma PriceBarsDefined(products: seq<Product>)
    ensures Max(BucketCounts(products)) > 0 <==> exists i | 0 <= i < |products| :: products[i].price >= 0.0
  {
    var c := BucketCounts(products);
    BucketCountsTotal(products);
    SumOfFive(c);
    NonNegativeIff(Prices(products));
    if Max(c) > 0 {
      assert Sum(c) > 0;
    } else {
      assert c[0] == 0 && c[1] == 0 && c[2] == 0 && c[3] == 0 && c[4] == 0;
    }
  }

  /** The width of each price bar, in percent of the bar area. */
  function PriceBarWidths(products: seq<Product>): (w: seq<real>)
    requires Max(BucketCounts(products)) > 0
    ensures |w| == 5
    ensures forall i | 0 <= i < 5 :: 0.0 <= w[i] <= 100.0
    ensures forall i | 0 <= i < 5 :: w[i] == 100.0 <==> BucketCounts(products)[i] == Max(BucketCounts(products))
  {
    Scaled(BucketCounts(products), 100.0)
  }

  // ---------------------------------------------------------------------------
  // Rating stars in ProductList

  /** Star i is filled when `i < Math.floor(rating)`. */
  function Stars(rating: real): (s: seq<bool>)
    ensures |s| == 5
  {
    seq(5, i requires 0 <= i < 5 => i < rating.Floor)
  }

  function Clamp(x: int, lo: int, hi: int): int {
    if x < lo then lo else if x > hi then hi else x
  }

  lemma {:induction false} FilledPrefix(n: nat, f: int)
    ensures Occ(seq(n, i requires 0 <= i < n => i < f), true) == Clamp(f, 0, n)
  {
    if n > 0 {
      var s := seq(n, i requires 0 <= i < n => i < f);
      assert s[..n - 1] == seq(n - 1, i requires 0 <= i < n - 1 => i < f);
      FilledPrefix(n - 1, f);
    }
  }

  /** The filled stars come first, and there are floor(rating) of them, at
      least 0 and at most 5. */
  lemma StarsSpec(rating: real)
    ensures forall i | 0 <= i < 5 :: Stars(rating)[i] <==> i < Clamp(rating.Floor, 0, 5)
    ensures Occ(Stars(rating), true) == Clamp(rating.Floor, 0, 5)
  {
    FilledPrefix(5, rating.Floor);
    assert Stars(rating) == seq(5, i requires 0 <= i < 5 => i < rating.Floor);
  }

  // ---------------------------------------------------------------------------
  // ProductPriceChart

  /** `priceData.slice(-14)`: the last min(14, n) points. */
  function Window(pd: seq<PricePoint>): (w: seq<PricePoint>)
    ensures |w| == Min(14, |pd|)
    ensures forall i | 0 <= i < |w| :: w[i] == pd[|pd| - |w| + i]
  {
    pd[|pd| - Min(14, |pd|)..]
  }

  function PricesOf(pd: seq<PricePoint>): (ps: seq<real>)
    ensures |ps| == |pd|
    ensures forall i | 0 <= i < |pd| :: ps[i] == pd[i].price
  {
    seq(|pd|, i requires 0 <= i < |pd| => pd[i].price)
  }

  /** `Math.min(...prices)` */
  function MinReal(s: seq<real>): (m: real)
    requires |s| > 0
    ensures forall i | 0 <= i < |s| :: m <= s[i]
    ensures exists i | 0 <= i < |s| :: s[i] == m
  {
    if |s| == 1 then s[0]
    else
      var m := MinReal(s[..|s| - 1]);
      assert forall i | 0 <= i < |s| - 1 :: s[..|s| - 1][i] == s[i];
      if s[|s| - 1] < m then s[|s| - 1] else m
  }

  /** `Math.max(...prices)` */
  function MaxReal(s: seq<real>): (m: real)
    requires |s| > 0
    ensures forall i | 0 <= i < |s| :: s[i] <= m
    ensures exists i | 0 <= i < |s| :: s[i] == m
  {
    if |s| == 1 then s[0]
    else
      var m := MaxReal(s[..|s| - 1]);
      assert forall i | 0 <= i < |s| - 1 :: s[..|s| - 1][i] == s[i];
      if s[|s| - 1] > m then s[|s| - 1] else m
  }

  /** `maxPrice - minPrice || 1` */
  function PriceRange(lo: real, hi: real): (r: real)
    requires lo <= hi
    ensures r > 0.0
    ensures hi > lo ==> r == hi - lo
  {
    if hi - lo == 0.0 then 1.0 else hi - lo
  }

  datatype ChartPoint = ChartPoint(x: real, y: real, date: string, price: real)

  const ChartWidth := 100.0
  const ChartHeight := 200.0

  /** `(index / (length - 1)) * chartWidth` */
  function XOf(index: nat, n: nat): real
    requires n >= 2
  {
    index as real / (n - 1) as real * ChartWidth
  }

  /** `chartHeight - ((price - minPrice) / priceRange) * chartHeight` */
  function YOf(price: real, lo: real, range: real): real
    requires range > 0.0
  {
    ChartHeight - (price - lo) / range * ChartHeight
  }

  /** The plotted points of the window. */
  function ChartPoints(dp: seq<PricePoint>): (pts: seq<ChartPoint>)
    requires |dp| >= 2
    ensures |pts| == |dp|
  {
    var ps := PricesOf(dp);
    var lo := MinReal(ps);
    var hi := MaxReal(ps);
    var range := PriceRange(lo, hi);
    seq(|dp|, i requires 0 <= i < |dp| =>
      ChartPoint(XOf(i, |dp|), YOf(dp[i].price, lo, range), dp[i].date, dp[i].price))
  }

  lemma XFacts(i: nat, j: nat, n: nat)
    requires n >= 2 && i < j < n
    ensures XOf(i, n) < XOf(j, n)
  {
    var d := (n - 1) as real;
    assert i as real / d < j as real / d;
  }

  lemma XEnds(n: nat)
    requires n >= 2
    ensures XOf(0, n) == 0.0 && XOf(n - 1, n) == 100.0
  {
  }

  lemma YFacts(price: real, lo: real, hi: real)
    requires lo <= price <= hi
    ensures 0.0 <= YOf(price, lo, PriceRange(lo, hi)) <= 200.0
    ensures lo == hi ==> YOf(price, lo, PriceRange(lo, hi)) == 200.0
    ensures lo < hi && price == hi ==> YOf(price, lo, PriceRange(lo, hi)) == 0.0
  {
    var r := PriceRange(lo, hi);
    if lo < hi {
      RatioBounds(price - lo, r);
    }
  }

  /** Every y lies in [0, 200]; a flat series is drawn at y = 200 and otherwise
      the highest price reaches y = 0; x runs from 0 to 100, strictly
      increasing with the index. */
  lemma ChartPointsSpec(dp: seq<PricePoint>)
    requires |dp| >= 2
    ensures var pts := ChartPoints(dp);
      && (forall i | 0 <= i < |pts| :: 0.0 <= pts[i].y <= 200.0)
      && (MinReal(PricesOf(dp)) == MaxReal(PricesOf(dp)) ==> forall i | 0 <= i < |pts| :: pts[i].y == 200.0)
      && (MinReal(PricesOf(dp)) < MaxReal(PricesOf(dp)) ==>
            forall i | 0 <= i < |pts| :: dp[i].price == MaxReal(PricesOf(dp)) ==> pts[i].y == 0.0)
      && pts[0].x == 0.0 && pts[|pts| - 1].x == 100.0
      && (forall i, j | 0 <= i < j < |pts| :: pts[i].x < pts[j].x)
      && (forall i | 0 <= i < |pts| :: pts[i].date == dp[i].date && pts[i].price == dp[i].price)
  {
    var ps := PricesOf(dp);
    var lo := MinReal(ps);
    var hi := MaxReal(ps);
    var pts := ChartPoints(dp);
    forall i | 0 <= i < |pts|
      ensures 0.0 <= pts[i].y <= 200.0
      ensures lo == hi ==> pts[i].y == 200.0
      ensures lo < hi && dp[i].price == hi ==> pts[i].y == 0.0
    {
      YFacts(dp[i].price, lo, hi);
    }
    forall i, j | 0 <= i < j < |pts| ensures pts[i].x < pts[j].x {
      XFacts(i, j, |dp|);
    }
    XEnds(|dp|);
  }

  /** One command of the SVG path. */
  datatype PathCommand = MoveTo(x: real, y: real) | LineTo(x: real, y: real)

  /** `points.map((point, index) => index === 0 ? 'M x,y' : 'L x,y')` */
  function PathOf(pts: seq<ChartPoint>): (path: seq<PathCommand>)
    ensures |path| == |pts|
  {
    seq(|pts|, i requires 0 <= i < |pts| =>
      if i == 0 then MoveTo(pts[i].x, pts[i].y) else LineTo(pts[i].x, pts[i].y))
  }

  /** One command per point in index order, the only MoveTo being the first. */
  lemma PathSpec(pts: seq<ChartPoint>)
    ensures var path := PathOf(pts);
      forall i | 0 <= i < |pts| ::
        && (path[i].MoveTo? <==> i == 0)
        && path[i].x == pts[i].x && path[i].y == pts[i].y
  {
  }

  /** The indices of the three x-axis labels. */
  function AxisIndices(n: nat): (ix: seq<nat>)
    requires n >= 1
    ensures |ix| == 3 && ix[0] <= ix[1] <= ix[2] < n
    ensures ix[0] == 0 && ix[2] == n - 1
  {
    [0, n / 2, n - 1]
  }

  /** "Current Price": the last point of the whole history. */
  function CurrentPrice(pd: seq<PricePoint>): real
    requires |pd| > 0
  {
    pd[|pd| - 1].price
  }

  /** "30-Day Avg": the mean over the whole history, not just the window. */
  function AveragePrice(pd: seq<PricePoint>): real
    requires |pd| > 0
  {
    SumReal(PricesOf(pd)) / |pd| as real
  }

  lemma {:induction false} SumRealBounds(s: seq<real>, lo: real, hi: real)
    requires forall i | 0 <= i < |s| :: lo <= s[i] <= hi
    ensures lo * |s| as real <= SumReal(s) <= hi * |s| as real
  {
    if s != [] {
      var p := s[..|s| - 1];
      assert forall i | 0 <= i < |p| :: p[i] == s[i];
      SumRealBounds(p, lo, hi);
      assert lo * |s| as real == lo * |p| as real + lo;
      assert hi * |s| as real == hi * |p| as real + hi;
    }
  }

  /** The mean of values between lo and hi lies between lo and hi. */
  lemma MeanBounds(s: seq<real>, lo: real, hi: real)
    requires |s| > 0 && forall i | 0 <= i < |s| :: lo <= s[i] <= hi
    ensures lo <= SumReal(s) / |s| as real <= hi
  {
    SumRealBounds(s, lo, hi);
    DivideBounds(lo, hi, SumReal(s), |s| as real);
  }

  lemma DivideBounds(lo: real, hi: real, total: real, n: real)
    requires n > 0.0 && lo * n <= total <= hi * n
    ensures lo <= total / n <= hi
  {
    assert total / n * n == total;
  }

  /** The average lies between the lowest and the highest price of the history. */
  lemma AverageBounds(pd: seq<PricePoint>)
    requires |pd| > 0
    ensures MinReal(PricesOf(pd)) <= AveragePrice(pd) <= MaxReal(PricesOf(pd))
  {
    var ps := PricesOf(pd);
    MeanBounds(ps, MinReal(ps), MaxReal(ps));
  }

  /** The current price is also the last plotted point. */
  lemma CurrentPriceIsLastPlotted(pd: seq<PricePoint>)
    requires |pd| > 0
    ensures Window(pd)[|Window(pd)| - 1].price == CurrentPrice(pd)
  {
  }

  /** What ProductPriceChart shows for the first product's history. */
  datatype PriceChart = PriceChart(
    title: string,
    high: real,
    low: real,
    points: seq<ChartPoint>,
    path: seq<PathCommand>,
    axisLabels: seq<string>,
    current: real,
    average: real)

  /** ProductPriceChart for `priceHistory[0]`; a window of fewer than two points
      would divide 0 by 0 for x. */
  function PriceChartOf(priceHistory: seq<PriceSeries>): (c: PriceChart)
    requires |priceHistory| > 0 && |priceHistory[0].priceData| >= 2
    ensures |c.points| == |c.path| == Min(14, |priceHistory[0].priceData|)
    ensures c.low <= c.high
  {
    var series := priceHistory[0];
    var dp := Window(series.priceData);
    var ps := PricesOf(dp);
    var pts := ChartPoints(dp);
    var ix := AxisIndices(|dp|);
    PriceChart(
      series.productName,
      MaxReal(ps),
      MinReal(ps),
      pts,
      PathOf(pts),
      [DropYear(dp[ix[0]].date), DropYear(dp[ix[1]].date), DropYear(dp[ix[2]].date)],
      CurrentPrice(series.priceData),
      AveragePrice(series.priceData))
  }
}
