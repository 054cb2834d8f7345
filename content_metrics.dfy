/** The overview's per-content-type figures: the per-type sums of every period are folded into
    one metric per content type, which is then summarised into averages and rates. */
module ContentMetrics {
  import opened Wrappers
  import opened Grouping
  import opened PerformanceOverview

  /** One `[type, metrics]` entry of a period's per-type sums. */
  datatype Entry = Entry(contentType: string, totals: Totals)

  function EntryType(e: Entry): string { e.contentType }

  function EntryOf(b: Period): string -> Entry {
    t => Entry(t, if t in b.byType then b.byType[t] else NoTotals)
  }

  /** The entries of one period, in the order its types were registered. */
  function EntriesOf(b: Period): seq<Entry> {
    MapSeq(b.types, EntryOf(b))
  }

  /** The entries of every period, period after period. */
  function Entries(ps: seq<Period>): seq<Entry> {
    if ps == [] then [] else Entries(ps[..|ps| - 1]) + EntriesOf(ps[|ps| - 1])
  }

  function SumTotals(es: seq<Entry>): Totals {
    if es == [] then NoTotals else Add(SumTotals(es[..|es| - 1]), es[|es| - 1].totals)
  }

  /** One content type's figures across the periods: the sums of its posts and the number of
      periods it occurs in. */
  datatype TypeMetric = TypeMetric(contentType: string, sums: Totals, periods: int)

  function NewMetric(t: string): TypeMetric { TypeMetric(t, NoTotals, 0) }

  function AddEntry(m: TypeMetric, e: Entry): TypeMetric {
    m.(sums := Add(m.sums, e.totals), periods := m.periods + 1)
  }

  /** The metric of type `t` over the entries `es`, by definition: the sum of the entries of
      that type, and how many there are. */
  function MetricOf(es: seq<Entry>, t: string): TypeMetric {
    var sel := Select(es, EntryType, t);
    TypeMetric(t, SumTotals(sel), |sel|)
  }

  function MetricFor(es: seq<Entry>): string -> TypeMetric {
    t => MetricOf(es, t)
  }

  /** The content types of the periods, in first-seen order. */
  function TypesOf(ps: seq<Period>): seq<string> {
    KeysInOrder(Entries(ps), EntryType)
  }

  /** One metric per content type, in first-seen order. */
  function Metrics(ps: seq<Period>): seq<TypeMetric> {
    MapSeq(TypesOf(ps), MetricFor(Entries(ps)))
  }

  // ---------------------------------------------------------------- the fold

  /** The fold's accumulator: types in the order they were met, and the metric of each. */
  datatype MetricAcc = MetricAcc(order: seq<string>, metrics: map<string, TypeMetric>)

  function MetricStep(a: MetricAcc, e: Entry): MetricAcc {
    var t := e.contentType;
    MetricAcc(if t in a.metrics then a.order else a.order + [t],
              a.metrics[t := AddEntry(if t in a.metrics then a.metrics[t] else NewMetric(t), e)])
  }

  ghost function MetricFold(es: seq<Entry>): MetricAcc {
    if es == [] then MetricAcc([], map[]) else MetricStep(MetricFold(es[..|es| - 1]), es[|es| - 1])
  }

  /** `acc` holds, for every type met in `es`, its metric over `es`. */
  ghost predicate MetricsOf(es: seq<Entry>, acc: map<string, TypeMetric>) {
    (forall t :: t in acc <==> t in KeysInOrder(es, EntryType)) &&
    (forall t :: t in acc ==> acc[t] == MetricOf(es, t))
  }

  lemma {:induction false} SumTotalsSnoc(es: seq<Entry>, e: Entry)
    ensures SumTotals(es + [e]) == Add(SumTotals(es), e.totals)
  {
    assert (es + [e])[..|es|] == es;
  }

  /** One more entry keeps the accumulator in step. */
  lemma {:induction false} MetricsStep(es: seq<Entry>, e: Entry, acc: map<string, TypeMetric>)
    requires MetricsOf(es, acc)
    ensures MetricsOf(es + [e], MetricStep(MetricAcc([], acc), e).metrics)
  {
    var t := e.contentType;
    var acc' := MetricStep(MetricAcc([], acc), e).metrics;
    assert forall u :: u in acc' <==> u in KeysInOrder(es + [e], EntryType) by {
      KeysInOrderSnoc(es, e, EntryType);
    }
    forall u | u in acc'
      ensures acc'[u] == MetricOf(es + [e], u)
    {
      SelectSnoc(es, e, EntryType, u);
      if u == t {
        SumTotalsSnoc(Select(es, EntryType, u), e);
        SelectNonEmptyIffSeen(es, EntryType, u);
      } else {
        assert Select(es, EntryType, u) + [] == Select(es, EntryType, u);
      }
    }
  }

  /** The fold lists the types in first-seen order and holds each type's metric. */
  lemma {:induction false} MetricFoldIsMetrics(es: seq<Entry>)
    ensures MetricFold(es).order == KeysInOrder(es, EntryType)
    ensures MetricsOf(es, MetricFold(es).metrics)
  {
    if es != [] {
      var es' := es[..|es| - 1];
      var e := es[|es| - 1];
      assert es == es' + [e];
      MetricFoldIsMetrics(es');
      MetricsStep(es', e, MetricFold(es').metrics);
      KeysInOrderSnoc(es', e, EntryType);
    }
  }

  /** The final accumulator, listed in its type order, is the metrics. */
  lemma {:induction false} MetricFoldInOrder(es: seq<Entry>)
    ensures var a := MetricFold(es);
      (forall i :: 0 <= i < |a.order| ==> a.order[i] in a.metrics) &&
      ValuesInOrder(a.order, a.metrics) == MapSeq(KeysInOrder(es, EntryType), MetricFor(es))
  {
    MetricFoldIsMetrics(es);
    MetricsInOrder(es, MetricFold(es).metrics);
  }

  lemma {:induction false} MetricsInOrder(es: seq<Entry>, acc: map<string, TypeMetric>)
    requires MetricsOf(es, acc)
    ensures forall i :: 0 <= i < |KeysInOrder(es, EntryType)| ==> KeysInOrder(es, EntryType)[i] in acc
    ensures ValuesInOrder(KeysInOrder(es, EntryType), acc) == MapSeq(KeysInOrder(es, EntryType), MetricFor(es))
  {
    var ks := KeysInOrder(es, EntryType);
    assert forall j :: 0 <= j < |ks| ==> ks[j] in acc by {
      forall j | 0 <= j < |ks| ensures ks[j] in acc {
        assert ks[j] in ks;
      }
    }
    var vs := ValuesInOrder(ks, acc);
    var ms := MapSeq(ks, MetricFor(es));
    forall j | 0 <= j < |vs| ensures vs[j] == ms[j] {
      assert ks[j] in ks;
    }
    assert vs == ms;
  }

  lemma {:induction false} MetricFoldPrefix(es: seq<Entry>, xs: seq<Entry>, j: int)
    requires 0 <= j < |xs|
    ensures MetricFold(es + xs[..j + 1]) == MetricStep(MetricFold(es + xs[..j]), xs[j])
  {
    assert es + xs[..j + 1] == (es + xs[..j]) + [xs[j]];
    assert (es + xs[..j + 1])[..|es| + j] == es + xs[..j];
  }

  lemma {:induction false} EntriesPrefix(ps: seq<Period>, i: int)
    requires 0 <= i < |ps|
    ensures Entries(ps[..i + 1]) == Entries(ps[..i]) + EntriesOf(ps[i])
  {
    assert ps[..i + 1][..i] == ps[..i];
  }

  /** The content-type `reduce` over the periods: for each period its `[type, metrics]`
      entries are added in turn. */
  method AggregateContentTypes(ps: seq<Period>) returns (metrics: seq<TypeMetric>)
    requires forall i :: 0 <= i < |ps| ==> WellFormed(ps[i])
    ensures metrics == Metrics(ps)
  {
    var order: seq<string> := [];
    var acc: map<string, TypeMetric> := map[];
    var i := 0;
    while i < |ps|
      invariant 0 <= i <= |ps|
      invariant MetricAcc(order, acc) == MetricFold(Entries(ps[..i]))
    {
      assert forall j :: 0 <= j < |ps[i].types| ==> ps[i].types[j] in ps[i].byType by {
        assert WellFormed(ps[i]);
        forall j | 0 <= j < |ps[i].types| ensures ps[i].types[j] in ps[i].byType {
          assert ps[i].types[j] in ps[i].types;
        }
      }
      order, acc := AddEntries(order, acc, Entries(ps[..i]), ps[i]);
      EntriesPrefix(ps, i);
      i := i + 1;
    }
    assert ps[..i] == ps;
    MetricFoldInOrder(Entries(ps));
    metrics := ValuesInOrder(order, acc);
  }

  /** The `forEach` over one period's entries: a metric is opened when its type is first met,
      and the entry's sums are added to it and its period count raised. */
  method AddEntries(order: seq<string>, acc: map<string, TypeMetric>, ghost es: seq<Entry>, b: Period)
    returns (order': seq<string>, acc': map<string, TypeMetric>)
    requires forall j :: 0 <= j < |b.types| ==> b.types[j] in b.byType
    requires MetricAcc(order, acc) == MetricFold(es)
    ensures MetricAcc(order', acc') == MetricFold(es + EntriesOf(b))
  {
    order', acc' := order, acc;
    var j := 0;
    assert es + EntriesOf(b)[..0] == es;
    while j < |b.types|
      invariant 0 <= j <= |b.types|
      invariant MetricAcc(order', acc') == MetricFold(es + EntriesOf(b)[..j])
    {
      var t := b.types[j];
      EntryAt(b, j);
      var e := Entry(t, b.byType[t]);
      ghost var before := MetricAcc(order', acc');
      if t !in acc' {
        acc' := acc'[t := NewMetric(t)];
        order' := order' + [t];
        UpdateTwice(before.metrics, t, NewMetric(t), AddEntry(acc'[t], e));
      }
      acc' := acc'[t := AddEntry(acc'[t], e)];
      assert acc' == before.metrics[t := AddEntry(if t in before.metrics then before.metrics[t] else NewMetric(t), e)];
      assert MetricAcc(order', acc') == MetricStep(before, e);
      MetricFoldPrefix(es, EntriesOf(b), j);
      j := j + 1;
    }
    assert EntriesOf(b)[..|b.types|] == EntriesOf(b);
  }

  /** The `j`-th entry of a period is its `j`-th type with that type's sums. */
  lemma {:induction false} EntryAt(b: Period, j: int)
    requires 0 <= j < |b.types| && b.types[j] in b.byType
    ensures EntriesOf(b)[j] == Entry(b.types[j], b.byType[b.types[j]])
  {
  }

  // ---------------------------------------------------------------- what the metrics hold

  /** What a period holds of figure `m` of type `t`. */
  function TypeGet(t: string, m: Measure): Period -> int {
    (b: Period) => if t in b.byType then Get(b.byType[t], m) else 0
  }

  /** Whether a period holds type `t`, as a count. */
  function Occurs(t: string): Period -> int {
    (b: Period) => if t in b.byType then 1 else 0
  }

  /** Within one well-formed period a type has at most one entry: its sums, if it occurs. */
  lemma {:induction false} SelectEntriesOf(b: Period, t: string)
    requires WellFormed(b)
    ensures Select(EntriesOf(b), EntryType, t) == if t in b.byType then [Entry(t, b.byType[t])] else []
  {
    SelectMapDistinct(b.types, EntryOf(b), EntryType, t);
  }

  /** Appending a well-formed period's entries adds that period's sums of `t` to the metric of
      `t`, if the period holds it. */
  lemma {:induction false} MetricSnoc(es: seq<Entry>, b: Period, t: string)
    requires WellFormed(b)
    ensures MetricOf(es + EntriesOf(b), t)
      == if t in b.byType then AddEntry(MetricOf(es, t), Entry(t, b.byType[t])) else MetricOf(es, t)
  {
    SelectAppend(es, EntriesOf(b), EntryType, t);
    SelectEntriesOf(b, t);
    var sel := Select(es, EntryType, t);
    if t in b.byType {
      SumTotalsSnoc(sel, Entry(t, b.byType[t]));
    } else {
      assert sel + [] == sel;
    }
  }

  /** A type's metric across well-formed periods adds up what each period holds of it, and
      counts the periods that hold it. */
  lemma {:induction false} MetricAcross(ps: seq<Period>, t: string, m: Measure)
    requires forall i :: 0 <= i < |ps| ==> WellFormed(ps[i])
    ensures Get(MetricOf(Entries(ps), t).sums, m) == SumW(ps, TypeGet(t, m))
    ensures MetricOf(Entries(ps), t).periods == SumW(ps, Occurs(t))
  {
    if ps != [] {
      var ps' := ps[..|ps| - 1];
      var b := ps[|ps| - 1];
      assert forall i :: 0 <= i < |ps'| ==> WellFormed(ps'[i]) by {
        assert forall i :: 0 <= i < |ps'| ==> ps'[i] == ps[i];
      }
      MetricAcross(ps', t, m);
      assert WellFormed(b);
      var before := MetricOf(Entries(ps'), t);
      var after := MetricOf(Entries(ps), t);
      assert after == if t in b.byType then AddEntry(before, Entry(t, b.byType[t])) else before by {
        MetricSnoc(Entries(ps'), b, t);
      }
      assert Get(after.sums, m) == Get(before.sums, m) + TypeGet(t, m)(b) by {
        if t in b.byType {
          GetAdd(before.sums, b.byType[t], m);
        }
      }
    }
  }

  lemma {:induction false} GetAdd(x: Totals, y: Totals, m: Measure)
    ensures Get(Add(x, y), m) == Get(x, m) + Get(y, m)
  {
  }

  /** What period `k` holds of type `t` is what the posts of type `t` that fall in period `k`
      add up to; and it holds the type exactly when there are such posts. */
  lemma {:induction false} TypeShare(lib: DateLib, g: Timeframe, posts: seq<Post>, t: string, m: Measure, k: string)
    requires k in KeysInOrder(posts, KeyOf(lib, g))
    ensures SumW(Select(Select(posts, TypeOf, t), KeyOf(lib, g), k), Weight(m)) == TypeGet(t, m)(PeriodFor(lib, g, posts)(k))
    ensures (if Select(Select(posts, TypeOf, t), KeyOf(lib, g), k) != [] then 1 else 0) == Occurs(t)(PeriodFor(lib, g, posts)(k))
  {
    var key := KeyOf(lib, g);
    var sel := Select(posts, key, k);
    SelectNonEmptyIffSeen(posts, key, k);
    PeriodOfMeaning(lib, g, sel);
    SelectCommutes(posts, key, k, TypeOf, t);
    SelectNonEmptyIffSeen(sel, TypeOf, t);
    GetTotalsOf(Select(sel, TypeOf, t), m);
  }

  /** Folded across the periods, figure `m` of type `t` is that figure summed over the posts of
      type `t`. */
  lemma {:induction false} MetricMeasure(lib: DateLib, g: Timeframe, posts: seq<Post>, t: string, m: Measure)
    ensures Get(MetricOf(Entries(Periods(lib, g, posts)), t).sums, m) == SumW(Select(posts, TypeOf, t), Weight(m))
  {
    PeriodsWellFormed(lib, g, posts);
    MetricAcross(Periods(lib, g, posts), t, m);
    SharesSum(lib, g, posts, t, m);
  }

  /** What the periods hold of figure `m` of type `t` adds up to that figure over the posts of
      type `t`. */
  lemma {:induction false} SharesSum(lib: DateLib, g: Timeframe, posts: seq<Post>, t: string, m: Measure)
    ensures SumW(Periods(lib, g, posts), TypeGet(t, m)) == SumW(Select(posts, TypeOf, t), Weight(m))
  {
    var key := KeyOf(lib, g);
    var ks := KeysInOrder(posts, key);
    var st := Select(posts, TypeOf, t);
    var share := k => SumW(Select(st, key, k), Weight(m));
    var period := PeriodFor(lib, g, posts);
    var held := TypeGet(t, m);
    forall i | 0 <= i < |ks| ensures share(ks[i]) == held(period(ks[i])) {
      assert ks[i] in ks;
      TypeShare(lib, g, posts, t, m, ks[i]);
    }
    SumWMap(ks, period, held, share);
    SelectCovered(posts, TypeOf, t, key);
    PartitionSum(st, key, Weight(m), ks);
  }

  /** Folding the periods per type gives each type exactly the totals of the posts of that type:
      no post is lost or counted twice between the two groupings. */
  lemma {:induction false} MetricIsTypeTotals(lib: DateLib, g: Timeframe, posts: seq<Post>, t: string)
    ensures MetricOf(Entries(Periods(lib, g, posts)), t).sums == TotalsOf(Select(posts, TypeOf, t))
  {
    var st := Select(posts, TypeOf, t);
    var sums := MetricOf(Entries(Periods(lib, g, posts)), t).sums;
    forall m: Measure ensures Get(sums, m) == Get(TotalsOf(st), m) {
      MetricMeasure(lib, g, posts, t, m);
      GetTotalsOf(st, m);
    }
    SameMeasures(sums, TotalsOf(st));
  }

  /** Totals that agree on every figure are equal. */
  lemma {:induction false} SameMeasures(x: Totals, y: Totals)
    requires forall m: Measure :: Get(x, m) == Get(y, m)
    ensures x == y
  {
    assert Get(x, PostsM) == Get(y, PostsM) && Get(x, LikesM) == Get(y, LikesM);
    assert Get(x, CommentsM) == Get(y, CommentsM) && Get(x, EngagementM) == Get(y, EngagementM);
  }

  /** A type's period count is the number of distinct periods its posts fall in. */
  lemma {:induction false} MetricPeriods(lib: DateLib, g: Timeframe, posts: seq<Post>, t: string)
    ensures MetricOf(Entries(Periods(lib, g, posts)), t).periods == |KeysInOrder(Select(posts, TypeOf, t), KeyOf(lib, g))|
  {
    PeriodsWellFormed(lib, g, posts);
    MetricAcross(Periods(lib, g, posts), t, PostsM);
    OccurrencesCount(lib, g, posts, t);
  }

  /** The periods that hold type `t` are as many as the distinct periods of its posts. */
  lemma {:induction false} OccurrencesCount(lib: DateLib, g: Timeframe, posts: seq<Post>, t: string)
    ensures SumW(Periods(lib, g, posts), Occurs(t)) == |KeysInOrder(Select(posts, TypeOf, t), KeyOf(lib, g))|
  {
    var key := KeyOf(lib, g);
    var ks := KeysInOrder(posts, key);
    var st := Select(posts, TypeOf, t);
    var seen := k => if k in KeysInOrder(st, key) then 1 else 0;
    var period := PeriodFor(lib, g, posts);
    var held := Occurs(t);
    forall i | 0 <= i < |ks| ensures seen(ks[i]) == held(period(ks[i])) {
      assert ks[i] in ks;
      TypeShare(lib, g, posts, t, PostsM, ks[i]);
      SelectNonEmptyIffSeen(st, key, ks[i]);
    }
    SumWMap(ks, period, held, seen);
    SelectCovered(posts, TypeOf, t, key);
    CountSeen(st, key, ks);
  }

  /** The types listed are exactly the types of the posts grouped. */
  lemma {:induction false} TypesAreTypesOfPosts(lib: DateLib, g: Timeframe, posts: seq<Post>, t: string)
    ensures t in TypesOf(Periods(lib, g, posts)) <==> t in KeysInOrder(posts, TypeOf)
  {
    var st := Select(posts, TypeOf, t);
    MetricPeriods(lib, g, posts, t);
    SelectNonEmptyIffSeen(Entries(Periods(lib, g, posts)), EntryType, t);
    KeysNonEmpty(st, KeyOf(lib, g));
    SelectNonEmptyIffSeen(posts, TypeOf, t);
  }

  /** Every listed type occurs in at least one period. */
  lemma {:induction false} MetricHasPeriods(ps: seq<Period>, t: string)
    requires t in TypesOf(ps)
    ensures 1 <= MetricOf(Entries(ps), t).periods
  {
    SelectNonEmptyIffSeen(Entries(ps), EntryType, t);
  }

  /** Across well-formed periods a type has at least as many posts as periods it occurs in. */
  lemma {:induction false} PeriodsAtMostPosts(ps: seq<Period>, t: string)
    requires forall i :: 0 <= i < |ps| ==> WellFormed(ps[i])
    ensures MetricOf(Entries(ps), t).periods <= MetricOf(Entries(ps), t).sums.posts
  {
    MetricAcross(ps, t, PostsM);
    SumWLe(ps, Occurs(t), TypeGet(t, PostsM));
  }

  // ---------------------------------------------------------------- summaries

  /** `Math.round(a / b)` on whole numbers, or `None` where the quotient is not a finite number
      (a zero divisor gives `NaN` or `Infinity`). */
  function JsRoundDiv(a: int, b: int): (r: Option<int>)
    ensures r.Some? <==> b != 0
    ensures b > 0 ==> r.Some? && 2 * b * r.value <= 2 * a + b < 2 * b * r.value + 2 * b
  {
    if b > 0 then Some(RoundDiv(a, b)) else if b < 0 then Some(RoundDiv(-a, -b)) else None
  }

  /** A content type's row: its metric, the rounded average likes and comments per post, and,
      in hundredths, the engagement per post per period and the posts per period (each rounded
      to two decimals). */
  datatype TypeSummary = TypeSummary(
    metric: TypeMetric,
    averageLikes: Option<int>,
    averageComments: Option<int>,
    engagementRate: Option<int>,
    postsPerPeriod: Option<int>)

  function Summarize(m: TypeMetric): (s: TypeSummary)
    ensures s.metric == m
    ensures s.averageLikes.Some? <==> m.sums.posts != 0
    ensures s.averageComments.Some? <==> m.sums.posts != 0
    ensures s.engagementRate.Some? <==> m.sums.posts * m.periods != 0
    ensures s.postsPerPeriod.Some? <==> m.periods != 0
    ensures m.sums.posts > 0 ==>
      var n := m.sums.posts;
      && 2 * n * s.averageLikes.value <= 2 * m.sums.likes + n < 2 * n * s.averageLikes.value + 2 * n
      && 2 * n * s.averageComments.value <= 2 * m.sums.comments + n < 2 * n * s.averageComments.value + 2 * n
  {
    TypeSummary(m,
      JsRoundDiv(m.sums.likes, m.sums.posts),
      JsRoundDiv(m.sums.comments, m.sums.posts),
      JsRoundDiv(100 * m.sums.engagement, m.sums.posts * m.periods),
      JsRoundDiv(100 * m.sums.posts, m.periods))
  }

  /** The average a row shows for likes or comments. */
  function AverageShown(s: TypeSummary, m: Measure): Option<int> {
    match m
    case LikesM => s.averageLikes
    case CommentsM => s.averageComments
    case _ => None
  }

  /** A rounded quotient is at least `c` when the dividend is at least `c` times the divisor. */
  lemma {:induction false} RoundDivAtLeast(a: int, b: int, c: int)
    requires b > 0 && a >= c * b
    ensures RoundDiv(a, b) >= c
  {
    var q := RoundDiv(a, b);
    if q < c {
      MulLe(2 * b, q + 1, c);
      assert false;
    }
  }

  /** The divisions of a row never see a zero divisor for the types the fold lists: every figure
      is a finite number, and a type has at least one post per period it occurs in. */
  lemma {:induction false} SummaryDefined(ps: seq<Period>, t: string)
    requires forall i :: 0 <= i < |ps| ==> WellFormed(ps[i])
    requires t in TypesOf(ps)
    ensures var s := Summarize(MetricOf(Entries(ps), t));
      s.averageLikes.Some? && s.averageComments.Some? && s.engagementRate.Some? &&
      s.postsPerPeriod.Some? && s.postsPerPeriod.value >= 100
  {
    var m := MetricOf(Entries(ps), t);
    MetricHasPeriods(ps, t);
    PeriodsAtMostPosts(ps, t);
    MulLe(m.sums.posts, 1, m.periods);
    MulLe(100, m.periods, m.sums.posts);
    RoundDivAtLeast(100 * m.sums.posts, m.periods, 100);
  }

  /** A type's average likes (or comments) per post lies between the least and the greatest
      likes (or comments) of its posts. */
  lemma {:induction false} TypeAverageWithin(lib: DateLib, g: Timeframe, posts: seq<Post>, t: string, m: Measure, lo: int, hi: int)
    requires m == LikesM || m == CommentsM
    requires t in KeysInOrder(posts, TypeOf)
    requires var st := Select(posts, TypeOf, t); forall i :: 0 <= i < |st| ==> lo <= Weight(m)(st[i]) <= hi
    ensures var s := Summarize(MetricOf(Entries(Periods(lib, g, posts)), t));
      AverageShown(s, m).Some? && lo <= AverageShown(s, m).value <= hi
  {
    var st := Select(posts, TypeOf, t);
    SelectNonEmptyIffSeen(posts, TypeOf, t);
    MetricIsTypeTotals(lib, g, posts, t);
    GetTotalsOf(st, m);
    RoundedAverageWithin(st, Weight(m), lo, hi);
  }
}
