/** The performance overview as a whole: the empty-data guard, the processing of the posts in
    the selected range into the time series and the content-type rows, and the spacing of the
    time chart's axis labels. */
module Overview {
  import opened Wrappers
  import opened Grouping
  import opened PerformanceOverview
  import opened ContentMetrics

  /** What the processing hands to the charts. */
  datatype Processed = Processed(timeMetrics: seq<Period>, contentTypes: seq<TypeSummary>)

  /** The time series, by definition: the periods of the filtered posts, by time, averaged. */
  function TimeMetrics(lib: DateLib, g: Timeframe, posts: seq<Post>, r: DateRange): (tm: seq<Period>)
    requires r.from <= r.to
    ensures |tm| == |KeysInOrder(FilterInRange(posts, r), KeyOf(lib, g))|
    ensures forall i :: 0 <= i < |tm| ==> tm[i].sums.posts >= 1
  {
    var ps := Periods(lib, g, FilterInRange(posts, r));
    SortKeepsPeriods(ps);
    MapSeq(SortByTime(ps), Averaged)
  }

  /** Sorting keeps the number of periods and each period's post count. */
  lemma {:induction false} SortKeepsPeriods(ps: seq<Period>)
    requires forall i :: 0 <= i < |ps| ==> ps[i].sums.posts >= 1
    ensures |SortByTime(ps)| == |ps|
    ensures forall i :: 0 <= i < |SortByTime(ps)| ==> SortByTime(ps)[i].sums.posts >= 1
  {
    var sorted := SortByTime(ps);
    assert |sorted| == |multiset(sorted)| == |ps|;
    forall i | 0 <= i < |sorted| ensures sorted[i].sums.posts >= 1 {
      assert sorted[i] in multiset(ps);
    }
  }

  /** The content-type rows, by definition: one summary per type of the filtered posts. */
  function ContentTypes(lib: DateLib, g: Timeframe, posts: seq<Post>, r: DateRange): (ct: seq<TypeSummary>)
    requires r.from <= r.to
    ensures |ct| == |TypesOf(Periods(lib, g, FilterInRange(posts, r)))|
  {
    MapSeq(Metrics(Periods(lib, g, FilterInRange(posts, r))), Summarize)
  }

  /** Filters the posts to the range, groups them, sorts and averages the periods, folds the
      content types across the periods and summarises each type. */
  method ProcessData(lib: DateLib, g: Timeframe, posts: seq<Post>, r: DateRange) returns (out: Processed)
    requires r.from <= r.to
    ensures out.timeMetrics == TimeMetrics(lib, g, posts, r)
    ensures out.contentTypes == ContentTypes(lib, g, posts, r)
  {
    var filtered := FilterInRange(posts, r);
    var periods := GroupByPeriod(lib, g, filtered);
    PeriodsWellFormed(lib, g, filtered);
    var metrics := AggregateContentTypes(periods);
    out := Processed(MapSeq(SortByTime(periods), Averaged), MapSeq(metrics, Summarize));
  }

  /** The time series is in ascending order of the periods' opening timestamps, and it holds the
      periods of the filtered posts, each once, averaged. */
  lemma {:induction false} TimeMetricsSorted(lib: DateLib, g: Timeframe, posts: seq<Post>, r: DateRange)
    requires r.from <= r.to
    ensures var tm := TimeMetrics(lib, g, posts, r);
      SortedByTime(tm) &&
      multiset(tm) == multiset(MapSeq(Periods(lib, g, FilterInRange(posts, r)), Averaged))
  {
    var ps := Periods(lib, g, FilterInRange(posts, r));
    var sorted := SortByTime(ps);
    var tm := MapSeq(sorted, Averaged);
    forall i, j | 0 <= i < j < |tm|
      ensures tm[i].timestamp <= tm[j].timestamp
    {
      assert tm[i].timestamp == sorted[i].timestamp && tm[j].timestamp == sorted[j].timestamp;
    }
    MapSeqPermutation(sorted, ps, Averaged);
  }

  /** Each filtered post is counted in exactly one point of the time series: the post counts
      of the points add up to the number of posts in range. */
  lemma {:induction false} TimeMetricsCountPosts(lib: DateLib, g: Timeframe, posts: seq<Post>, r: DateRange)
    requires r.from <= r.to
    ensures SumW(TimeMetrics(lib, g, posts, r), PostCount) == |FilterInRange(posts, r)|
  {
    var ps := Periods(lib, g, FilterInRange(posts, r));
    var tm := TimeMetrics(lib, g, posts, r);
    PeriodsCountPosts(lib, g, FilterInRange(posts, r));
    SumWMap(SortByTime(ps), Averaged, PostCount, PostCount);
    SumWPermutation(SortByTime(ps), ps, PostCount);
  }

  /** The content table has one row per content type of the posts in range, in first-seen
      order, and every one of its figures is a finite number. */
  lemma {:induction false} ContentTypesRows(lib: DateLib, g: Timeframe, posts: seq<Post>, r: DateRange)
    requires r.from <= r.to
    ensures var ct := ContentTypes(lib, g, posts, r);
      var fs := FilterInRange(posts, r);
      |ct| == |TypesOf(Periods(lib, g, fs))| &&
      (forall t :: t in TypesOf(Periods(lib, g, fs)) <==> t in KeysInOrder(fs, TypeOf)) &&
      forall i :: 0 <= i < |ct| ==>
        ct[i].metric.contentType == TypesOf(Periods(lib, g, fs))[i] &&
        ct[i].averageLikes.Some? && ct[i].averageComments.Some? &&
        ct[i].engagementRate.Some? && ct[i].postsPerPeriod.Some?
  {
    var fs := FilterInRange(posts, r);
    var ps := Periods(lib, g, fs);
    var ts := TypesOf(ps);
    var ct := ContentTypes(lib, g, posts, r);
    PeriodsWellFormed(lib, g, fs);
    forall t ensures t in ts <==> t in KeysInOrder(fs, TypeOf) {
      TypesAreTypesOfPosts(lib, g, fs, t);
    }
    forall i | 0 <= i < |ct|
      ensures ct[i].metric.contentType == ts[i]
      ensures ct[i].averageLikes.Some? && ct[i].averageComments.Some?
      ensures ct[i].engagementRate.Some? && ct[i].postsPerPeriod.Some?
    {
      assert ct[i] == Summarize(MetricOf(Entries(ps), ts[i]));
      SummaryDefined(ps, ts[i]);
    }
  }

  // ---------------------------------------------------------------- rendering

  /** What the overview shows: a placeholder when there is nothing to show, else the charts
      with the axis label interval. */
  datatype View = NoData | Charts(processed: Processed, xAxisInterval: nat)

  /** How many labels of the time chart's axis are skipped between two shown ones. */
  function XAxisInterval(n: nat): (k: nat)
    ensures k == 0 <==> n <= 10
    ensures 10 * k <= n <= 10 * (k + 1)
    ensures 10 < n <= 30 ==> 10 * k < n
    ensures n > 30 ==> n < 10 * (k + 1)
  {
    if n <= 10 then 0
    else if n <= 20 then 1
    else if n <= 30 then 2
    else n / 10
  }

  /** A longer series never has its labels closer together. */
  lemma {:induction false} XAxisIntervalMonotone(n: nat, m: nat)
    requires n <= m
    ensures XAxisInterval(n) <= XAxisInterval(m)
  {
    if m > 30 && n > 30 {
      DivMonotone(n, m, 10);
    }
  }

  lemma {:induction false} DivMonotone(n: nat, m: nat, d: nat)
    requires n <= m && d > 0
    ensures n / d <= m / d
  {
    if n / d > m / d {
      assert d * (m / d + 1) <= d * (n / d) by {
        MulLe(d, m / d + 1, n / d);
      }
    }
  }

  /** Showing every `k + 1`-th label leaves at most ten labels on the axis. */
  lemma {:induction false} AtMostTenLabels(n: nat)
    ensures (n + XAxisInterval(n)) / (XAxisInterval(n) + 1) <= 10
  {
    var k := XAxisInterval(n);
    if (n + k) / (k + 1) > 10 {
      MulLe(k + 1, 11, (n + k) / (k + 1));
      assert false;
    }
  }

  /** The overview for the data it is given (`None` for a value that is not an array), the
      selected timeframe and the selected range. */
  method Render(lib: DateLib, g: Timeframe, data: Option<seq<Post>>, r: DateRange) returns (v: View)
    requires r.from <= r.to
    ensures v == NoData <==> data.None? || data == Some([])
    ensures v.Charts? ==>
      v.processed == Processed(TimeMetrics(lib, g, data.value, r), ContentTypes(lib, g, data.value, r)) &&
      v.xAxisInterval == XAxisInterval(|TimeMetrics(lib, g, data.value, r)|)
  {
    if data.None? || data.value == [] {
      return NoData;
    }
    var out := ProcessData(lib, g, data.value, r);
    v := Charts(out, XAxisInterval(|out.timeMetrics|));
  }
}
