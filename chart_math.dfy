/** Arithmetic shared by the charts: sums and maxima of counts, percentages,
    normalising a series against its maximum, and JavaScript's Math.round. */
module ChartMath {

  function Min(a: int, b: int): int {
    if a <= b then a else b
  }

  function Sum(s: seq<nat>): nat {
    if s == [] then 0 else Sum(s[..|s| - 1]) + s[|s| - 1]
  }

  /** Math.max over a non-empty list of counts. */
  function Max(s: seq<nat>): (m: nat)
    requires |s| > 0
    ensures forall i | 0 <= i < |s| :: s[i] <= m
    ensures exists i | 0 <= i < |s| :: s[i] == m
  {
    if |s| == 1 then s[0]
    else
      var m := Max(s[..|s| - 1]);
      assert forall i | 0 <= i < |s| - 1 :: s[..|s| - 1][i] == s[i];
      if s[|s| - 1] > m then s[|s| - 1] else m
  }

  /** (part / total) * 100, the percentage expression the charts use. */
  function Percent(part: nat, total: nat): real
    requires total > 0
  {
    part as real / total as real * 100.0
  }

  /** Percentages of one total add up. */
  lemma PercentAdd(a: nat, b: nat, total: nat)
    requires total > 0
    ensures Percent(a, total) + Percent(b, total) == Percent(a + b, total)
  {
    var t := total as real;
    assert (a as real) / t + (b as real) / t == ((a + b) as real) / t;
  }

  /** Extending a prefix by one element adds that element to its sum. */
  lemma SumPrefixStep(s: seq<nat>, i: nat)
    requires i < |s|
    ensures Sum(s[..i + 1]) == Sum(s[..i]) + s[i]
  {
    assert s[..i + 1][..i] == s[..i];
  }

  /** A prefix never sums to more than the whole. */
  lemma {:induction false} SumPrefixBound(s: seq<nat>, i: nat)
    requires i <= |s|
    ensures Sum(s[..i]) <= Sum(s)
    decreases |s| - i
  {
    if i < |s| {
      SumPrefixStep(s, i);
      SumPrefixBound(s, i + 1);
    } else {
      assert s[..i] == s;
    }
  }

  /** Every element is at most the sum. */
  lemma SumAtLeast(s: seq<nat>, i: nat)
    requires i < |s|
    ensures s[i] <= Sum(s)
  {
    SumPrefixStep(s, i);
    SumPrefixBound(s, i + 1);
  }

  lemma RatioBounds(a: real, b: real)
    requires 0.0 <= a <= b && b > 0.0
    ensures 0.0 <= a / b <= 1.0
    ensures a / b == 1.0 <==> a == b
    ensures a / b > 0.0 <==> a > 0.0
  {
    assert a / b * b == a;
  }

  lemma PercentBounds(part: nat, total: nat)
    requires part <= total && total > 0
    ensures 0.0 <= Percent(part, total) <= 100.0
    ensures Percent(part, total) == 100.0 <==> part == total
  {
    RatioBounds(part as real, total as real);
  }

  /** value / max * top, one bar of a chart normalised against its maximum. */
  function Ratio(value: nat, max: nat, top: real): real
    requires max > 0
  {
    value as real / max as real * top
  }

  lemma RatioFacts(value: nat, max: nat, top: real)
    requires value <= max && max > 0 && top > 0.0
    ensures Ratio(value, max, top) * max as real == value as real * top
    ensures 0.0 <= Ratio(value, max, top) <= top
    ensures Ratio(value, max, top) == top <==> value == max
    ensures Ratio(value, max, top) > 0.0 <==> value > 0
  {
    var x, m := value as real, max as real;
    RatioBounds(x, m);
    assert x / m * m == x;
  }

  lemma RatioMonotone(a: nat, b: nat, max: nat, top: real)
    requires a <= b && max > 0 && top > 0.0
    ensures Ratio(a, max, top) <= Ratio(b, max, top)
  {
    assert a as real / max as real <= b as real / max as real;
  }

  lemma RatioStrict(a: nat, b: nat, max: nat, top: real)
    requires a < b && max > 0 && top > 0.0
    ensures Ratio(a, max, top) < Ratio(b, max, top)
  {
    assert a as real / max as real < b as real / max as real;
  }

  /** Each value of s divided by the maximum of s and multiplied by top (a bar's
      full width or height). */
  function Scaled(s: seq<nat>, top: real): (r: seq<real>)
    requires top > 0.0
    requires s == [] || Max(s) > 0
    ensures |r| == |s|
    ensures forall i | 0 <= i < |s| :: r[i] == Ratio(s[i], Max(s), top)
    ensures forall i | 0 <= i < |s| :: 0.0 <= r[i] <= top
    ensures forall i | 0 <= i < |s| :: r[i] == top <==> s[i] == Max(s)
    ensures forall i | 0 <= i < |s| :: r[i] > 0.0 <==> s[i] > 0
    ensures forall i, j | 0 <= i < |s| && 0 <= j < |s| :: s[i] <= s[j] ==> r[i] <= r[j]
  {
    if s == [] then []
    else
      var m := Max(s);
      var r := seq(|s|, i requires 0 <= i < |s| => Ratio(s[i], m, top));
      assert forall i | 0 <= i < |s| ::
        && 0.0 <= r[i] <= top
        && (r[i] == top <==> s[i] == m)
        && (r[i] > 0.0 <==> s[i] > 0)
      by {
        forall i | 0 <= i < |s| { RatioFacts(s[i], m, top); }
      }
      assert forall i, j | 0 <= i < |s| && 0 <= j < |s| :: s[i] <= s[j] ==> r[i] <= r[j] by {
        forall i, j | 0 <= i < |s| && 0 <= j < |s| && s[i] <= s[j] { RatioMonotone(s[i], s[j], m, top); }
      }
      r
  }

  /** A bar reaches the top exactly when no value is larger than its own. */
  lemma ScaledTop(s: seq<nat>, top: real, i: nat)
    requires top > 0.0 && (s == [] || Max(s) > 0) && i < |s|
    ensures Scaled(s, top)[i] == top <==> forall j | 0 <= j < |s| :: s[j] <= s[i]
  {
    var k :| 0 <= k < |s| && s[k] == Max(s);
    if forall j | 0 <= j < |s| :: s[j] <= s[i] {
      assert s[k] <= s[i];
    }
  }

  /** JavaScript's `date.slice(5)`: the text without its first five characters
      (the "YYYY-" of an ISO date), or the empty text when it is shorter. */
  function DropYear(date: string): (r: string)
    ensures |date| >= 5 ==> date == date[..5] + r
    ensures |r| == if |date| >= 5 then |date| - 5 else 0
  {
    if |date| >= 5 then date[5..] else ""
  }

  /** JavaScript's Math.round: the nearest integer, halves rounded up. */
  function RoundHalfUp(x: real): int {
    (x + 0.5).Floor
  }

  lemma RoundHalfUpBounds(x: real)
    ensures x - 0.5 < RoundHalfUp(x) as real <= x + 0.5
  {
  }

  /** Two percentages that add up to 100 are shown as Math.round values that add
      up to 100, or to 101 when both fall exactly on a half. */
  lemma RoundedComplementSum(x: real)
    ensures RoundHalfUp(x) + RoundHalfUp(100.0 - x) == (if (x + 0.5).Floor as real == x + 0.5 then 101 else 100)
  {
    var a := x + 0.5;
    var fa := a.Floor;
    var b := 101.0 - a;
    if fa as real == a {
      assert b.Floor == 101 - fa;
    } else {
      assert fa as real < a < fa as real + 1.0;
      assert 100.0 - fa as real < b < 101.0 - fa as real;
      assert b.Floor == 100 - fa;
    }
  }

  /** The percentages of each count out of total. */
  function Percents(s: seq<nat>, total: nat): (r: seq<real>)
    requires total > 0
    ensures |r| == |s|
    ensures forall i | 0 <= i < |s| :: r[i] == Percent(s[i], total)
  {
    seq(|s|, i requires 0 <= i < |s| => Percent(s[i], total))
  }

  function SumReal(s: seq<real>): real {
    if s == [] then 0.0 else SumReal(s[..|s| - 1]) + s[|s| - 1]
  }

  /** Adding up percentages is taking the percentage of the sum. */
  lemma {:induction false} SumOfPercents(s: seq<nat>, total: nat)
    requires total > 0
    ensures SumReal(Percents(s, total)) == Percent(Sum(s), total)
  {
    if s != [] {
      var p := s[..|s| - 1];
      SumOfPercents(p, total);
      assert Percents(s, total)[..|s| - 1] == Percents(p, total);
      var t := total as real;
      assert (Sum(p) as real) / t * 100.0 + (s[|s| - 1] as real) / t * 100.0
          == ((Sum(p) + s[|s| - 1]) as real) / t * 100.0;
    }
  }

  /** The percentages of counts out of their own sum add up to 100. */
  lemma PercentsOfTotal(s: seq<nat>)
    requires Sum(s) > 0
    ensures SumReal(Percents(s, Sum(s))) == 100.0
  {
    SumOfPercents(s, Sum(s));
    PercentBounds(Sum(s), Sum(s));
  }
}
