/** The chart helpers of frontend/src/components/dashboard.js: the word bars of
    `WordFrequencySimple`, the link pie and legend of `LinkAnalysisSimple`, the
    visitor bars of `VisitorsSimple` and the table of
    `WordFrequencyDetailTable`, each applied to the record the backend sends. */
module DashboardCharts {
  import opened ChartMath
  import opened ScrapeModel
  import opened ScrapeWords
  import opened ProductCharts
  import opened Scraper

  // ---------------------------------------------------------------------------
  // WordFrequencySimple

  /** `data.map(item => item.count)` */
  function WordCounts(data: seq<WordEntry>): (c: seq<nat>)
    ensures |c| == |data|
    ensures forall i | 0 <= i < |data| :: c[i] == data[i].count
  {
    seq(|data|, i requires 0 <= i < |data| => data[i].count)
  }

  /** The bar widths `(item.count / maxCount) * 100`, in percent. With no words
      no bar is drawn and `Math.max()` is never divided by; a list of zero
      counts would divide by zero. */
  function WordBarWidths(data: seq<WordEntry>): (w: seq<real>)
    requires data == [] || Max(WordCounts(data)) > 0
    ensures |w| == |data|
    ensures forall i | 0 <= i < |data| :: 0.0 <= w[i] <= 100.0
    ensures forall i | 0 <= i < |data| :: w[i] > 0.0 <==> data[i].count > 0
    ensures forall i | 0 <= i < |data| :: w[i] == 100.0 <==> forall j | 0 <= j < |data| :: data[j].count <= data[i].count
    ensures forall i, j | 0 <= i < |data| && 0 <= j < |data| :: data[i].count <= data[j].count ==> w[i] <= w[j]
  {
    var c := WordCounts(data);
    var w := Scaled(c, 100.0);
    forall i | 0 <= i < |data|
      ensures w[i] == 100.0 <==> forall j | 0 <= j < |data| :: data[j].count <= data[i].count
    {
      ScaledTop(c, 100.0, i);
    }
    w
  }

  // ---------------------------------------------------------------------------
  // LinkAnalysisSimple

  const InternalColor := "#38bdf8"
  const ExternalColor := "#f97316"

  function LinkCounts(data: seq<LinkEntry>): (c: seq<nat>)
    ensures |c| == |data|
    ensures forall i | 0 <= i < |data| :: c[i] == data[i].count
  {
    seq(|data|, i requires 0 <= i < |data| => data[i].count)
  }

  /** `data.reduce((sum, item) => sum + item.count, 0)` */
  function LinkTotal(data: seq<LinkEntry>): nat {
    Sum(LinkCounts(data))
  }

  /** The colour of a legend entry: blue exactly for the type 'Internal'. */
  function LinkColor(kind: string): (c: string)
    ensures c == InternalColor <==> kind == "Internal"
    ensures c == InternalColor || c == ExternalColor
  {
    if kind == "Internal" then InternalColor else ExternalColor
  }

  /** The two regions of the link pie: blue from 0% to the share of the first
      entry, orange from there to 100%. A zero total divides by zero. */
  function LinkPie(data: seq<LinkEntry>): (r: seq<Slice>)
    requires |data| > 0 && LinkTotal(data) > 0
    ensures |r| == 2 && r[0].color == InternalColor && r[1].color == ExternalColor
    ensures r[0].start == 0.0 && r[0].end == r[1].start && r[1].end == 100.0
    ensures 0.0 <= r[0].end <= 100.0
    ensures r[0].end - r[0].start == Percent(data[0].count, LinkTotal(data))
    ensures r[1].end - r[1].start == Percent(LinkTotal(data) - data[0].count, LinkTotal(data))
  {
    var total := LinkTotal(data);
    SumAtLeast(LinkCounts(data), 0);
    PercentBounds(data[0].count, total);
    PercentAdd(data[0].count, total - data[0].count, total);
    PercentBounds(total, total);
    var split := Percent(data[0].count, total);
    [Slice(InternalColor, 0.0, split), Slice(ExternalColor, split, 100.0)]
  }

  /** One legend entry: type, count, colour and the rounded percentage. */
  datatype LegendItem = LegendItem(kind: string, count: nat, color: string, percent: int)

  /** The legend, `Math.round((item.count / total) * 100)` for every entry. */
  function LinkLegend(data: seq<LinkEntry>): (r: seq<LegendItem>)
    requires LinkTotal(data) > 0
    ensures |r| == |data|
    ensures forall i | 0 <= i < |data| :: r[i].kind == data[i].kind && r[i].count == data[i].count
    ensures forall i | 0 <= i < |data| :: r[i].color == LinkColor(data[i].kind)
    ensures forall i | 0 <= i < |data| :: 0 <= r[i].percent <= 100
    ensures forall i | 0 <= i < |data| ::
      Percent(data[i].count, LinkTotal(data)) - 0.5 < r[i].percent as real <= Percent(data[i].count, LinkTotal(data)) + 0.5
  {
    var total := LinkTotal(data);
    var r := seq(|data|, i requires 0 <= i < |data| =>
      LegendItem(data[i].kind, data[i].count, LinkColor(data[i].kind), RoundHalfUp(Percent(data[i].count, total))));
    forall i | 0 <= i < |data|
      ensures 0 <= r[i].percent <= 100
      ensures Percent(data[i].count, total) - 0.5 < r[i].percent as real <= Percent(data[i].count, total) + 0.5
    {
      SumAtLeast(LinkCounts(data), i);
      PercentBounds(data[i].count, total);
      RoundHalfUpBounds(Percent(data[i].count, total));
    }
    r
  }

  /** The backend's link analysis `[Internal, External]`.  */
  function BackendLinks(internal: nat, external: nat): (data: seq<LinkEntry>)
    ensures LinkTotal(data) == internal + external
  {
    var data := [LinkEntry("Internal", internal), LinkEntry("External", external)];
    var c := LinkCounts(data);
    assert c[..1][..0] == [] && c[..1] == [internal] && c[..2] == c;
    SumPrefixStep(c, 0);
    SumPrefixStep(c, 1);
    data
  }

  /** For the backend's two entries the pie regions are the internal and the
      external shares, the legend colours match the regions, and the two
      rounded percentages add up to 100, or to 101 when both shares end in
      exactly .5. */
  lemma BackendLinkChart(internal: nat, external: nat)
    requires internal + external > 0
    ensures var data := BackendLinks(internal, external);
      var pie := LinkPie(data);
      var legend := LinkLegend(data);
      && pie[0].end - pie[0].start == Percent(internal, internal + external)
      && pie[1].end - pie[1].start == Percent(external, internal + external)
      && legend[0].color == pie[0].color && legend[1].color == pie[1].color
      && (legend[0].percent + legend[1].percent == 100 || legend[0].percent + legend[1].percent == 101)
  {
    var total := internal + external;
    PercentAdd(internal, external, total);
    PercentBounds(total, total);
    RoundedComplementSum(Percent(internal, total));
  }

  // ---------------------------------------------------------------------------
  // VisitorsSimple

  function VisitorCounts(data: seq<VisitorPoint>): (c: seq<nat>)
    ensures |c| == |data|
    ensures forall i | 0 <= i < |data| :: c[i] == data[i].visitors
  {
    seq(|data|, i requires 0 <= i < |data| => data[i].visitors)
  }

  /** The bar heights `(item.visitors / maxVisitors) * 120`, in pixels. */
  function VisitorHeights(data: seq<VisitorPoint>): (h: seq<real>)
    requires data == [] || Max(VisitorCounts(data)) > 0
    ensures |h| == |data|
    ensures forall i | 0 <= i < |data| :: 0.0 <= h[i] <= 120.0
    ensures forall i | 0 <= i < |data| :: h[i] == 120.0 <==> forall j | 0 <= j < |data| :: data[j].visitors <= data[i].visitors
    ensures forall i, j | 0 <= i < |data| && 0 <= j < |data| :: data[i].visitors < data[j].visitors ==> h[i] < h[j]
  {
    var c := VisitorCounts(data);
    var h := Scaled(c, 120.0);
    forall i | 0 <= i < |data|
      ensures h[i] == 120.0 <==> forall j | 0 <= j < |data| :: data[j].visitors <= data[i].visitors
    {
      ScaledTop(c, 120.0, i);
    }
    forall i, j | 0 <= i < |data| && 0 <= j < |data| && data[i].visitors < data[j].visitors
      ensures h[i] < h[j]
    {
      RatioStrict(c[i], c[j], Max(c), 120.0);
    }
    h
  }

  /** The labels `item.date.slice(5)` under the bars. */
  function DateLabels(data: seq<VisitorPoint>): (l: seq<string>)
    ensures |l| == |data|
    ensures forall i | 0 <= i < |data| :: l[i] == DropYear(data[i].date)
  {
    seq(|data|, i requires 0 <= i < |data| => DropYear(data[i].date))
  }

  /** The backend's visitor series draws seven bars that grow from left to
      right, the last one 120 pixels high, labelled with the dates of the last
      seven days from six days ago to today, without their year. */
  lemma VisitorChartOfTimeData(dateOf: nat -> string)
    ensures var t := TimeData(dateOf);
      && Max(VisitorCounts(t)) > 0
      && var h := VisitorHeights(t);
        && |h| == 7 && h[6] == 120.0
        && (forall i, j | 0 <= i < j < 7 :: h[i] < h[j])
        && (forall i | 0 <= i < 7 :: DateLabels(t)[i] == DropYear(dateOf(6 - i)))
  {
    var t := TimeData(dateOf);
    var c := VisitorCounts(t);
    TimeDataSpec(dateOf);
    assert c[0] == 100;
    assert Max(c) > 0;
    var h := VisitorHeights(t);
    forall i, j | 0 <= i < j < 7 ensures h[i] < h[j] {
      RatioStrict(c[i], c[j], Max(c), 120.0);
    }
    assert forall j | 0 <= j < 7 :: t[j].visitors <= t[6].visitors;
  }

  // ---------------------------------------------------------------------------
  // WordFrequencyDetailTable

  /** One table row: rank, word, count and `(item.count / totalCount) * 100`. */
  datatype TableRow = TableRow(rank: nat, word: string, count: nat, percent: real)

  /** The table rows, in the order of the data. Percentages of a list whose
      counts are all zero divide by zero. */
  function WordTable(data: seq<WordEntry>): (rows: seq<TableRow>)
    requires data == [] || Sum(WordCounts(data)) > 0
    ensures |rows| == |data|
  {
    if data == [] then []
    else
      var total := Sum(WordCounts(data));
      seq(|data|, i requires 0 <= i < |data| =>
        TableRow(i + 1, data[i].word, data[i].count, Percent(data[i].count, total)))
  }

  /** The percentage column. */
  function PercentColumn(rows: seq<TableRow>): (p: seq<real>)
    ensures |p| == |rows|
  {
    seq(|rows|, i requires 0 <= i < |rows| => rows[i].percent)
  }

  /** Rows are ranked 1, 2, ... in the order of the data, each keeps its word
      and count, each percentage lies in [0, 100], and the percentages of a
      non-empty table add up to 100. */
  lemma WordTableSpec(data: seq<WordEntry>)
    requires data == [] || Sum(WordCounts(data)) > 0
    ensures var rows := WordTable(data);
      && (forall i | 0 <= i < |data| :: rows[i].rank == i + 1 && rows[i].word == data[i].word && rows[i].count == data[i].count)
      && (forall i | 0 <= i < |data| :: 0.0 <= rows[i].percent <= 100.0)
      && (data != [] ==> SumReal(PercentColumn(rows)) == 100.0)
  {
    if data != [] {
      var c := WordCounts(data);
      var rows := WordTable(data);
      forall i | 0 <= i < |data| ensures 0.0 <= rows[i].percent <= 100.0 {
        SumAtLeast(c, i);
        PercentBounds(c[i], Sum(c));
      }
      assert PercentColumn(rows) == Percents(c, Sum(c));
      PercentsOfTotal(c);
    }
  }

  // ---------------------------------------------------------------------------
  // The backend's frequent words on the dashboard

  /** Neither the bars nor the table of the list divide by zero. */
  predicate Drawable(data: seq<WordEntry>) {
    (data == [] || Max(WordCounts(data)) > 0) && (data == [] || Sum(WordCounts(data)) > 0)
  }

  /** A list of positive counts can be drawn. */
  lemma PositiveDrawable(data: seq<WordEntry>)
    requires forall i | 0 <= i < |data| :: data[i].count > 0
    ensures Drawable(data)
  {
    if data != [] {
      var c := WordCounts(data);
      assert Max(c) >= c[0] > 0;
      SumAtLeast(c, 0);
    }
  }

  /** For a list sorted by decreasing count, the first bar is the full 100%,
      the bars never grow down the list, and the table ranks the words from the
      most to the least frequent. */
  lemma SortedCharts(data: seq<WordEntry>)
    requires forall i | 0 <= i < |data| :: data[i].count > 0
    requires SortedByCountDesc(data)
    ensures Drawable(data)
    ensures data != [] ==> WordBarWidths(data)[0] == 100.0
    ensures forall i, j | 0 <= i < j < |data| :: WordBarWidths(data)[i] >= WordBarWidths(data)[j]
    ensures forall i, j | 0 <= i < j < |data| :: WordTable(data)[i].count >= WordTable(data)[j].count
  {
    PositiveDrawable(data);
    WordTableSpec(data);
    if data != [] {
      assert forall j | 0 <= j < |data| :: data[j].count <= data[0].count;
    }
  }

  /** The backend's frequent words can always be drawn, and their first bar is
      the full 100%, the bars never grow down the list, and the table ranks the
      words from the most to the least frequent. */
  lemma FrequentWordsCharts(words: seq<string>)
    ensures var r := FrequentWords(words);
      && Drawable(r)
      && (r != [] ==> WordBarWidths(r)[0] == 100.0)
      && (forall i, j | 0 <= i < j < |r| :: WordBarWidths(r)[i] >= WordBarWidths(r)[j])
      && (forall i, j | 0 <= i < j < |r| :: WordTable(r)[i].count >= WordTable(r)[j].count)
  {
    FrequentWordsEntries(words);
    FrequentWordsOrdered(words);
    SortedCharts(FrequentWords(words));
  }
}
