/** The word statistics of backend/app.py's `scrape_website`: the page text,
    already split into lower-case words, loses its stop words and short words,
    and Counter(...).most_common(5) picks the five most frequent of the rest. */
module ScrapeWords {
  import opened Tally
  import opened ChartMath
  import opened ScrapeModel

  /** The `common_words` set of the backend. */
  const StopWords: set<string> := {
    "the", "and", "a", "to", "of", "in", "is", "it", "that", "for", "on",
    "with", "as", "are", "at", "be", "this", "by", "an", "was", "not" }

  /** The filter of the `filtered_words` comprehension. */
  predicate Kept(w: string) {
    w !in StopWords && |w| > 2
  }

  /** `[word for word in words if word not in common_words and len(word) > 2]` */
  function FilterWords(words: seq<string>): (r: seq<string>)
    ensures forall i | 0 <= i < |r| :: Kept(r[i])
  {
    if words == [] then []
    else
      var w := words[|words| - 1];
      FilterWords(words[..|words| - 1]) + (if Kept(w) then [w] else [])
  }

  /** The filter keeps every occurrence of a kept word and drops every other word. */
  lemma {:induction false} FilterWordsCounts(words: seq<string>, x: string)
    ensures Occ(FilterWords(words), x) == if Kept(x) then Occ(words, x) else 0
  {
    if words != [] {
      var p := words[..|words| - 1];
      var w := words[|words| - 1];
      FilterWordsCounts(p, x);
      OccSplit(FilterWords(p), if Kept(w) then [w] else [], x);
      assert words == p + [w];
      OccSnoc(p, w, x);
      if Kept(w) {
        assert Occ([w], x) == Occ([], x) + (if w == x then 1 else 0) by { OccSnoc([], w, x); }
      }
    }
  }

  /** The Counter's (word, count) pairs, in order of first occurrence. */
  function CounterEntries(ws: seq<string>): (r: seq<WordEntry>)
    ensures |r| == |Distinct(ws)|
    ensures forall i | 0 <= i < |r| :: r[i] == WordEntry(Distinct(ws)[i], Occ(ws, Distinct(ws)[i]))
  {
    var d := Distinct(ws);
    seq(|d|, i requires 0 <= i < |d| => WordEntry(d[i], Occ(ws, d[i])))
  }

  predicate SortedByCountDesc(es: seq<WordEntry>) {
    forall i, j | 0 <= i < j < |es| :: es[i].count >= es[j].count
  }

  predicate DistinctWords(es: seq<WordEntry>) {
    forall i, j | 0 <= i < j < |es| :: es[i].word != es[j].word
  }

  /** Inserts e after every entry whose count is at least e's. */
  function Insert(t: seq<WordEntry>, e: WordEntry): (r: seq<WordEntry>)
    ensures |r| == |t| + 1
    decreases |t|
  {
    if t == [] || t[|t| - 1].count >= e.count then t + [e]
    else Insert(t[..|t| - 1], e) + [t[|t| - 1]]
  }

  /** The stable descending sort by count of
      `sorted(entries, key=count, reverse=True)`, as insertion sort. */
  function SortByCount(es: seq<WordEntry>): (r: seq<WordEntry>)
    ensures |r| == |es|
  {
    if es == [] then [] else Insert(SortByCount(es[..|es| - 1]), es[|es| - 1])
  }

  /** `Counter(ws).most_common(n)` */
  function MostCommon(ws: seq<string>, n: nat): seq<WordEntry> {
    var sorted := SortByCount(CounterEntries(ws));
    sorted[..Min(n, |sorted|)]
  }

  /** The backend's `frequent_words`. */
  function FrequentWords(words: seq<string>): seq<WordEntry> {
    MostCommon(FilterWords(words), 5)
  }

  lemma {:induction false} InsertMultiset(t: seq<WordEntry>, e: WordEntry)
    ensures multiset(Insert(t, e)) == multiset(t) + multiset{e}
    decreases |t|
  {
    if !(t == [] || t[|t| - 1].count >= e.count) {
      var p := t[..|t| - 1];
      assert t == p + [t[|t| - 1]];
      InsertMultiset(p, e);
    }
  }

  lemma InsertMembers(t: seq<WordEntry>, e: WordEntry)
    ensures forall x | x in Insert(t, e) :: x in t || x == e
  {
    InsertMultiset(t, e);
    forall x | x in Insert(t, e) ensures x in t || x == e {
      assert x in multiset(Insert(t, e));
    }
  }

  lemma {:induction false} InsertSorted(t: seq<WordEntry>, e: WordEntry)
    requires SortedByCountDesc(t)
    ensures SortedByCountDesc(Insert(t, e))
    decreases |t|
  {
    if !(t == [] || t[|t| - 1].count >= e.count) {
      var p := t[..|t| - 1];
      var last := t[|t| - 1];
      InsertSorted(p, e);
      InsertMembers(p, e);
      var q := Insert(p, e);
      forall i | 0 <= i < |q| ensures q[i].count >= last.count {
        assert q[i] in q;
      }
    }
  }

  lemma {:induction false} InsertDistinct(t: seq<WordEntry>, e: WordEntry)
    requires DistinctWords(t)
    requires forall i | 0 <= i < |t| :: t[i].word != e.word
    ensures DistinctWords(Insert(t, e))
    decreases |t|
  {
    if !(t == [] || t[|t| - 1].count >= e.count) {
      var p := t[..|t| - 1];
      var last := t[|t| - 1];
      InsertDistinct(p, e);
      InsertMembers(p, e);
      var q := Insert(p, e);
      forall i | 0 <= i < |q| ensures q[i].word != last.word {
        assert q[i] in q;
      }
    }
  }

  lemma {:induction false} SortFacts(es: seq<WordEntry>)
    ensures multiset(SortByCount(es)) == multiset(es)
    ensures SortedByCountDesc(SortByCount(es))
    ensures DistinctWords(es) ==> DistinctWords(SortByCount(es))
  {
    if es != [] {
      var p := es[..|es| - 1];
      var e := es[|es| - 1];
      assert es == p + [e];
      SortFacts(p);
      var s := SortByCount(p);
      InsertMultiset(s, e);
      InsertSorted(s, e);
      if DistinctWords(es) {
        forall i | 0 <= i < |s| ensures s[i].word != e.word {
          assert s[i] in multiset(p);
        }
        InsertDistinct(s, e);
      }
    }
  }

  lemma CounterEntriesDistinct(ws: seq<string>)
    ensures DistinctWords(CounterEntries(ws))
  {
    DistinctElements(ws);
  }

  /** Every entry of the sorted Counter is a kept word with its number of occurrences. */
  lemma SortedEntry(words: seq<string>, i: nat)
    requires i < |SortByCount(CounterEntries(FilterWords(words)))|
    ensures var e := SortByCount(CounterEntries(FilterWords(words)))[i];
      Kept(e.word) && e.count == Occ(words, e.word) && e.count > 0
  {
    var f := FilterWords(words);
    var es := CounterEntries(f);
    var sorted := SortByCount(es);
    SortFacts(es);
    DistinctElements(f);
    assert sorted[i] in multiset(es);
    var k :| 0 <= k < |es| && es[k] == sorted[i];
    assert Distinct(f)[k] in f;
    OccPositive(f, Distinct(f)[k]);
    FilterWordsCounts(words, Distinct(f)[k]);
  }

  /** A kept word of the page is somewhere in the sorted Counter. */
  lemma KeptWordIsSorted(words: seq<string>, w: string)
    requires Kept(w) && w in words
    ensures var sorted := SortByCount(CounterEntries(FilterWords(words)));
      exists m | 0 <= m < |sorted| :: sorted[m] == WordEntry(w, Occ(words, w))
  {
    var f := FilterWords(words);
    var es := CounterEntries(f);
    var sorted := SortByCount(es);
    SortFacts(es);
    FilterWordsCounts(words, w);
    OccPositive(words, w);
    OccPositive(f, w);
    DistinctElements(f);
    var k :| 0 <= k < |Distinct(f)| && Distinct(f)[k] == w;
    assert es[k] in multiset(sorted);
  }

  /** At most five words are listed, and fewer only when the page has fewer
      distinct kept words. */
  lemma FrequentWordsLength(words: seq<string>)
    ensures |FrequentWords(words)| == Min(5, |Distinct(FilterWords(words))|)
  {
  }

  /** Each listed word is a kept word with its exact number of occurrences. */
  lemma FrequentWordsEntries(words: seq<string>)
    ensures var r := FrequentWords(words);
      forall i | 0 <= i < |r| ::
        Kept(r[i].word) && r[i].count == Occ(words, r[i].word) && r[i].count > 0
  {
    var sorted := SortByCount(CounterEntries(FilterWords(words)));
    var r := FrequentWords(words);
    assert r == sorted[..Min(5, |sorted|)];
    forall i | 0 <= i < |r|
      ensures Kept(r[i].word) && r[i].count == Occ(words, r[i].word) && r[i].count > 0
    {
      assert r[i] == sorted[i];
      SortedEntry(words, i);
    }
  }

  /** No word is listed twice and counts never increase down the list. */
  lemma FrequentWordsOrdered(words: seq<string>)
    ensures var r := FrequentWords(words);
      forall i, j | 0 <= i < j < |r| :: r[i].count >= r[j].count && r[i].word != r[j].word
  {
    var es := CounterEntries(FilterWords(words));
    var sorted := SortByCount(es);
    assert FrequentWords(words) == sorted[..Min(5, |sorted|)];
    SortFacts(es);
    CounterEntriesDistinct(FilterWords(words));
  }

  /** An entry of a sorted list that is not among its first n entries comes after
      n entries, none of them with a smaller count. */
  lemma OutsidePrefix(sorted: seq<WordEntry>, n: nat, m: nat)
    requires SortedByCountDesc(sorted) && 0 < n && m < |sorted|
    requires sorted[m] !in sorted[..Min(n, |sorted|)]
    ensures Min(n, |sorted|) == n && sorted[m].count <= sorted[n - 1].count
  {
    if m < n {
      assert false;
    }
  }

  /** A kept word of the page that is not listed occurs no more often than the
      last one listed, and then five are listed. */
  lemma FrequentWordsTop(words: seq<string>, w: string)
    requires Kept(w) && w in words
    requires forall i | 0 <= i < |FrequentWords(words)| :: FrequentWords(words)[i].word != w
    ensures |FrequentWords(words)| == 5 && Occ(words, w) <= FrequentWords(words)[4].count
  {
    var es := CounterEntries(FilterWords(words));
    var sorted := SortByCount(es);
    var r := FrequentWords(words);
    assert r == sorted[..Min(5, |sorted|)];
    SortFacts(es);
    KeptWordIsSorted(words, w);
    var m :| 0 <= m < |sorted| && sorted[m] == WordEntry(w, Occ(words, w));
    assert sorted[m] !in r;
    OutsidePrefix(sorted, 5, m);
  }
}
