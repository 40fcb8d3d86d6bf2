/** The SkinCoach statistics screen: the top three labels by percentage,
    the bar chart's order, labels and width, and the trend arrows. */
module StatsScreen {
  import opened Wrappers
  import opened Text
  import opened Labels
  import opened Analysis
  import Ordering

  /** One trend point: the average score per label over a period. */
  datatype TrendPoint = TrendPoint(month: string, week: string, averages: map<string, real>)

  const BAR_ITEM_WIDTH: nat := 75
  const EXTRA_MARGIN: nat := 40

  /** The comparators `b.percent - a.percent` and `b.count - a.count`. */
  predicate ByPercentDesc(a: LabelStat, b: LabelStat) { a.percent >= b.percent }
  predicate ByCountDesc(a: LabelStat, b: LabelStat) { a.count >= b.count }

  lemma DescendingOrders()
    ensures Ordering.TotalPreorder(ByPercentDesc)
    ensures Ordering.TotalPreorder(ByCountDesc)
  {
  }

  /** `top3`: `by_label` sorted by descending percent, first three kept; no stats, no cards. */
  function Top3(stats: Option<StatsResponse>): seq<LabelStat> {
    if stats.None? then []
    else
      var sorted := Ordering.SortBy(stats.value.byLabel, ByPercentDesc);
      if |sorted| <= 3 then sorted else sorted[..3]
  }

  /** The top three are min(3, n) entries of `by_label`, in descending percent,
      and none of the entries left out has a higher percent than any of them. */
  lemma Top3IsTop(stats: StatsResponse)
    ensures |Top3(Some(stats))| == (if |stats.byLabel| < 3 then |stats.byLabel| else 3)
    ensures multiset(Top3(Some(stats))) <= multiset(stats.byLabel)
    ensures Ordering.SortedBy(Top3(Some(stats)), ByPercentDesc)
    ensures forall i, j :: 0 <= i < |Top3(Some(stats))| <= j < |stats.byLabel| ==>
      Top3(Some(stats))[i].percent >= Ordering.SortBy(stats.byLabel, ByPercentDesc)[j].percent
  {
    var sorted := Ordering.SortBy(stats.byLabel, ByPercentDesc);
    DescendingOrders();
    Ordering.SortBySorted(stats.byLabel, ByPercentDesc);
    PrefixOfSorted(sorted, if |sorted| <= 3 then |sorted| else 3);
  }

  lemma PrefixOfSorted(sorted: seq<LabelStat>, k: nat)
    requires k <= |sorted|
    requires Ordering.SortedBy(sorted, ByPercentDesc)
    ensures multiset(sorted[..k]) <= multiset(sorted)
    ensures Ordering.SortedBy(sorted[..k], ByPercentDesc)
    ensures forall i, j :: 0 <= i < k <= j < |sorted| ==> sorted[i].percent >= sorted[j].percent
  {
    assert sorted == sorted[..k] + sorted[k..];
    assert multiset(sorted) == multiset(sorted[..k]) + multiset(sorted[k..]);
  }

  /** The bar order: non-zero counts by descending count, then the zero counts
      in their original order. */
  function BarOrder(byLabel: seq<LabelStat>): seq<LabelStat> {
    var nonZero := Ordering.SortBy(Ordering.Filter(byLabel, (s: LabelStat) => s.count > 0), ByCountDesc);
    var zeros := Ordering.Filter(byLabel, (s: LabelStat) => s.count == 0);
    nonZero + zeros
  }

  /** The bar order is a permutation of `by_label` that puts every non-zero
      count first, in descending count, and the zeros last, in input order. */
  lemma {:induction false} BarOrderProperties(byLabel: seq<LabelStat>)
    ensures var r := BarOrder(byLabel);
      var k := |Ordering.Filter(byLabel, (s: LabelStat) => s.count > 0)|;
      multiset(r) == multiset(byLabel) &&
      k <= |r| &&
      (forall i :: 0 <= i < k ==> r[i].count > 0) &&
      (forall i, j :: 0 <= i < j < k ==> r[i].count >= r[j].count) &&
      r[k..] == Ordering.Filter(byLabel, (s: LabelStat) => s.count == 0)
  {
    var pos := (s: LabelStat) => s.count > 0;
    var zero := (s: LabelStat) => s.count == 0;
    var nonZero := Ordering.Filter(byLabel, pos);
    var sorted := Ordering.SortBy(nonZero, ByCountDesc);
    DescendingOrders();
    Ordering.SortBySorted(nonZero, ByCountDesc);
    Ordering.FilterPartition(byLabel, pos, zero);
    assert |sorted| == |nonZero| by {
      assert |multiset(sorted)| == |multiset(nonZero)|;
    }
    forall i | 0 <= i < |sorted| ensures sorted[i].count > 0 {
      assert sorted[i] in multiset(nonZero);
    }
  }

  /** The bar chart's labels and counts, one bar per label in bar order. */
  datatype BarData = BarData(labels: seq<string>, counts: seq<nat>)

  function BarChart(fr: map<string, string>, byLabel: seq<LabelStat>): (r: BarData)
    ensures |r.labels| == |r.counts| == |byLabel| == |BarOrder(byLabel)|
    ensures forall i :: 0 <= i < |r.counts| ==>
      r.labels[i] == ChartLabel(fr, BarOrder(byLabel)[i].name) && r.counts[i] == BarOrder(byLabel)[i].count
  {
    BarOrderProperties(byLabel);
    var sorted := BarOrder(byLabel);
    assert |sorted| == |byLabel| by {
      assert |multiset(sorted)| == |multiset(byLabel)|;
    }
    BarData(Ordering.Map(sorted, (s: LabelStat) => ChartLabel(fr, s.name)),
            Ordering.Map(sorted, (s: LabelStat) => s.count))
  }

  function MaxCount(counts: seq<nat>): (m: nat)
    requires counts != []
    ensures m in counts && forall c :: c in counts ==> c <= m
  {
    if |counts| == 1 then counts[0]
    else
      var rest := MaxCount(counts[1..]);
      assert counts == [counts[0]] + counts[1..];
      if counts[0] >= rest then counts[0] else rest
  }

  /** `Math.ceil(Math.max(...counts) / 10) || 1`. With no counts `Math.max`
      is -Infinity, which the `||` keeps. */
  datatype Segments = Segments(n: int) | NegativeInfinity

  function BarSegments(counts: seq<nat>): (r: Segments)
    ensures counts == [] <==> r == NegativeInfinity
    ensures counts != [] && MaxCount(counts) == 0 ==> r == Segments(1)
    ensures counts != [] && MaxCount(counts) > 0 ==>
      r.Segments? && r.n >= 1 && (r.n - 1) * 10 < MaxCount(counts) <= r.n * 10
  {
    if counts == [] then NegativeInfinity
    else
      var m := MaxCount(counts);
      var ceil := (m + 9) / 10;
      if ceil == 0 then Segments(1) else Segments(ceil)
  }

  /** `barWidth`, and the chart width: at least the screen-based width. */
  function BarWidth(labels: nat): nat { labels * BAR_ITEM_WIDTH + EXTRA_MARGIN }

  function ChartWidth(baseWidth: real, labels: nat): (w: real)
    ensures w >= baseWidth && w >= BarWidth(labels) as real
    ensures w == baseWidth || w == BarWidth(labels) as real
  {
    if baseWidth >= BarWidth(labels) as real then baseWidth else BarWidth(labels) as real
  }

  /** `deltas`: for each label of the first point, last average minus first,
      in percent; a label missing from the last point counts as 0. */
  function Deltas(trend: Option<seq<TrendPoint>>): (d: map<string, real>)
    ensures trend.None? || trend.value == [] ==> d == map[]
    ensures trend.Some? && trend.value != [] ==> d.Keys == trend.value[0].averages.Keys
    ensures trend.Some? && trend.value != [] ==>
      var first := trend.value[0].averages;
      var last := trend.value[|trend.value| - 1].averages;
      forall lbl :: lbl in d ==> d[lbl] == (if lbl in last then last[lbl] else 0.0) * 100.0 - first[lbl] * 100.0
  {
    if trend.None? || trend.value == [] then map[]
    else
      var first := trend.value[0].averages;
      var last := trend.value[|trend.value| - 1].averages;
      map lbl | lbl in first :: (if lbl in last then last[lbl] else 0.0) * 100.0 - first[lbl] * 100.0
  }

  /** The arrow of a top-3 card; a label with no delta counts as 0. */
  function Arrow(deltas: map<string, real>, name: string): (a: string)
    ensures a == "\U{2191}" <==> name in deltas && deltas[name] > 0.0
    ensures a == "\U{2193}" <==> name in deltas && deltas[name] < 0.0
    ensures a == "" <==> name !in deltas || deltas[name] == 0.0
  {
    var delta := if name in deltas then deltas[name] else 0.0;
    if delta > 0.0 then "\U{2191}" else if delta < 0.0 then "\U{2193}" else ""
  }

  /** Over a non-empty trend, a label's arrow points up exactly when its last
      average is above its first, down exactly when below; a label the first
      point does not have gets no arrow. */
  lemma TrendArrow(points: seq<TrendPoint>, lbl: string)
    requires points != []
    ensures var first := points[0].averages;
      var last := points[|points| - 1].averages;
      var end := if lbl in last then last[lbl] else 0.0;
      (lbl in first ==>
        (Arrow(Deltas(Some(points)), lbl) == "\U{2191}" <==> end > first[lbl]) &&
        (Arrow(Deltas(Some(points)), lbl) == "\U{2193}" <==> end < first[lbl])) &&
      (lbl !in first ==> Arrow(Deltas(Some(points)), lbl) == "")
  {
  }

  /** With no trend, or an empty one, no card shows an arrow. */
  lemma NoTrendNoArrow(trend: Option<seq<TrendPoint>>, name: string)
    requires trend.None? || trend.value == []
    ensures Arrow(Deltas(trend), name) == ""
  {
  }
}
