/** The dashboard's performance overview: posts are filtered to a date range, grouped into day,
    week or month periods, summed per period and per content type, averaged per post, and the
    per-type sums are folded across periods. */
module PerformanceOverview {
  import opened Wrappers
  import opened Grouping

  /** The metadata of one post. A timestamp is a point in time in milliseconds, already parsed;
      a post without one has `None`. Missing counts are `None` and count as zero. */
  datatype Post = Post(timestamp: Option<int>, likes: Option<nat>, comments: Option<nat>, contentType: Option<string>)

  function Likes(p: Post): int { p.likes.GetOr(0) }

  function Comments(p: Post): int { p.comments.GetOr(0) }

  /** A post's engagement: its likes plus its comments, each defaulting to zero. */
  function Engagement(p: Post): int { Likes(p) + Comments(p) }

  function Time(p: Post): int { p.timestamp.GetOr(0) }

  /** A post's content type, with `'Other'` standing for a missing or empty one. */
  function TypeOf(p: Post): (t: string)
    ensures t != ""
    ensures p.contentType.Some? && p.contentType.value != "" ==> t == p.contentType.value
    ensures p.contentType.None? || p.contentType == Some("") ==> t == "Other"
  {
    match p.contentType
    case Some(t) => if t == "" then "Other" else t
    case None => "Other"
  }

  // ---------------------------------------------------------------- date range

  /** An interval of time, inclusive at both ends. */
  datatype DateRange = DateRange(from: int, to: int)

  /** The timestamps of the posts that have one, in post order. */
  function Timestamps(posts: seq<Post>): (ts: seq<int>)
    ensures forall t :: t in ts <==> exists i :: 0 <= i < |posts| && posts[i].timestamp == Some(t)
  {
    if posts == [] then [] else
      var ts := Timestamps(posts[..|posts| - 1]);
      assert forall i :: 0 <= i < |posts| - 1 ==> posts[..|posts| - 1][i] == posts[i];
      match posts[|posts| - 1].timestamp
      case Some(t) => ts + [t]
      case None => ts
  }

  function Min(ts: seq<int>): (m: int)
    requires ts != []
    ensures m in ts && forall t :: t in ts ==> m <= t
  {
    if |ts| == 1 then ts[0] else
      var m := Min(ts[..|ts| - 1]);
      assert forall t :: t in ts ==> t in ts[..|ts| - 1] || t == ts[|ts| - 1];
      if ts[|ts| - 1] < m then ts[|ts| - 1] else m
  }

  function Max(ts: seq<int>): (m: int)
    requires ts != []
    ensures m in ts && forall t :: t in ts ==> t <= m
  {
    if |ts| == 1 then ts[0] else
      var m := Max(ts[..|ts| - 1]);
      assert forall t :: t in ts ==> t in ts[..|ts| - 1] || t == ts[|ts| - 1];
      if ts[|ts| - 1] > m then ts[|ts| - 1] else m
  }

  /** The range the overview opens with: from the earliest to the latest post timestamp, or the
      twelve months up to `today` when no post has a timestamp. `yearBefore` is `today` less
      twelve calendar months. */
  function InitialDateRange(posts: seq<Post>, today: int, yearBefore: int): (r: DateRange)
    ensures Timestamps(posts) == [] ==> r == DateRange(yearBefore, today)
    ensures Timestamps(posts) != [] ==>
      r.from <= r.to && r.from in Timestamps(posts) && r.to in Timestamps(posts) &&
      forall t :: t in Timestamps(posts) ==> r.from <= t <= r.to
  {
    var ts := Timestamps(posts);
    if ts == [] then DateRange(yearBefore, today) else DateRange(Min(ts), Max(ts))
  }

  predicate InRange(p: Post, r: DateRange) {
    p.timestamp.Some? && r.from <= p.timestamp.value <= r.to
  }

  /** The posts whose timestamp lies in `r`, ends included, in their order. A post without a
      timestamp is never in range. An inverted range is refused, as the date library does. */
  function FilterInRange(posts: seq<Post>, r: DateRange): (fs: seq<Post>)
    requires r.from <= r.to
    ensures |fs| <= |posts|
    ensures forall p :: multiset(fs)[p] == if InRange(p, r) then multiset(posts)[p] else 0
  {
    if posts == [] then [] else
      var prefix := posts[..|posts| - 1];
      var p := posts[|posts| - 1];
      assert posts == prefix + [p];
      FilterInRange(prefix, r) + if InRange(p, r) then [p] else []
  }

  /** One more post is kept at the end exactly when it is in range. */
  lemma {:induction false} FilterSnoc(s: seq<Post>, p: Post, r: DateRange)
    requires r.from <= r.to
    ensures FilterInRange(s + [p], r) == FilterInRange(s, r) + if InRange(p, r) then [p] else []
  {
    assert (s + [p])[..|s|] == s;
  }

  /** Filtering keeps the posts' order: it filters each part of a concatenation on its own. */
  lemma {:induction false} FilterInRangeAppend(xs: seq<Post>, ys: seq<Post>, r: DateRange)
    requires r.from <= r.to
    ensures FilterInRange(xs + ys, r) == FilterInRange(xs, r) + FilterInRange(ys, r)
  {
    if ys == [] {
      assert xs + ys == xs;
    } else {
      var ys' := ys[..|ys| - 1];
      var y := ys[|ys| - 1];
      assert ys == ys' + [y];
      assert xs + ys == (xs + ys') + [y];
      FilterInRangeAppend(xs, ys', r);
      FilterSnoc(xs + ys', y, r);
      FilterSnoc(ys', y, r);
      AppendAssoc(FilterInRange(xs, r), FilterInRange(ys', r), if InRange(y, r) then [y] else []);
    }
  }

  // ---------------------------------------------------------------- periods

  datatype Timeframe = Day | Week | Month

  /** The date library calls the grouping makes, as functions of a timestamp: the two key
      formats, the two label formats, and the starts of a timestamp's week and month. */
  datatype DateLib = DateLib(
    dayKey: int -> string,
    dayLabel: int -> string,
    monthKey: int -> string,
    monthLabel: int -> string,
    startOfWeek: int -> int,
    startOfMonth: int -> int)

  /** The key of the period a timestamp falls in. */
  function PeriodKey(lib: DateLib, g: Timeframe, t: int): string {
    match g
    case Day => lib.dayKey(t)
    case Week => lib.dayKey(lib.startOfWeek(t))
    case Month => lib.monthKey(lib.startOfMonth(t))
  }

  /** Two timestamps of the same week, or of the same month, fall in the same period. */
  lemma {:induction false} SameStartSameKey(lib: DateLib, g: Timeframe, t: int, u: int)
    requires g == Week ==> lib.startOfWeek(t) == lib.startOfWeek(u)
    requires g == Month ==> lib.startOfMonth(t) == lib.startOfMonth(u)
    requires g == Day ==> lib.dayKey(t) == lib.dayKey(u)
    ensures PeriodKey(lib, g, t) == PeriodKey(lib, g, u)
  {
  }

  /** The label of a period, rendered from the timestamp that opened it. */
  function PeriodLabel(lib: DateLib, g: Timeframe, t: int): (l: string)
    ensures g == Day ==> l == lib.dayLabel(t)
    ensures g == Week ==> l == "Week of " + lib.dayLabel(lib.startOfWeek(t))
    ensures g == Month ==> l == lib.monthLabel(lib.startOfMonth(t))
  {
    match g
    case Day => lib.dayLabel(t)
    case Week => "Week of " + lib.dayLabel(lib.startOfWeek(t))
    case Month => lib.monthLabel(lib.startOfMonth(t))
  }

  /** A week's label depends only on the week's start, a month's only on the month's start: every
      timestamp of one week, or of one month, opens a period with the same label. */
  lemma SameStartSameLabel(lib: DateLib, g: Timeframe, t: int, u: int)
    requires g == Week ==> lib.startOfWeek(t) == lib.startOfWeek(u)
    requires g == Month ==> lib.startOfMonth(t) == lib.startOfMonth(u)
    requires g == Day ==> lib.dayLabel(t) == lib.dayLabel(u)
    ensures PeriodLabel(lib, g, t) == PeriodLabel(lib, g, u)
    ensures g == Week ==> |PeriodLabel(lib, g, t)| >= 8 && PeriodLabel(lib, g, t)[..8] == "Week of "
  {
  }

  function KeyOf(lib: DateLib, g: Timeframe): Post -> string {
    p => PeriodKey(lib, g, Time(p))
  }

  /** Post count, likes, comments and engagement summed over some posts. */
  datatype Totals = Totals(posts: int, likes: int, comments: int, engagement: int)

  const NoTotals := Totals(0, 0, 0, 0)

  function PostTotals(p: Post): Totals { Totals(1, Likes(p), Comments(p), Engagement(p)) }

  function Add(a: Totals, b: Totals): Totals {
    Totals(a.posts + b.posts, a.likes + b.likes, a.comments + b.comments, a.engagement + b.engagement)
  }

  /** The totals of a sequence of posts: the reference each accumulated sum is proved against. */
  function TotalsOf(s: seq<Post>): Totals {
    Totals(|s|, SumW(s, Likes), SumW(s, Comments), SumW(s, Engagement))
  }

  /** One accumulated period: its label, its sums, the timestamp of the post that opened it, and
      per content type (in first-seen order) the sums of that type's posts. */
  datatype Period = Period(date: string, sums: Totals, timestamp: int, types: seq<string>, byType: map<string, Totals>)

  /** The period a post opens when its key is new, before the post is added. */
  function NewPeriod(lib: DateLib, g: Timeframe, p: Post): Period {
    Period(PeriodLabel(lib, g, Time(p)), NoTotals, Time(p), [], map[])
  }

  /** Adds one post to a period: to its sums and to the sums of the post's type, which is
      registered after the types seen so far if it is new. */
  function AddPost(b: Period, p: Post): Period {
    var t := TypeOf(p);
    var cur := if t in b.byType then b.byType[t] else NoTotals;
    b.(sums := Add(b.sums, PostTotals(p)),
       types := if t in b.byType then b.types else b.types + [t],
       byType := b.byType[t := Add(cur, PostTotals(p))])
  }

  /** The period of the posts `sel` (all of one key, in input order) as the accumulation builds
      it: opened by its first post, then each post added in turn. */
  function PeriodOf(lib: DateLib, g: Timeframe, sel: seq<Post>): (b: Period)
    ensures b.sums.posts == |sel|
    ensures sel != [] ==> b.timestamp == Time(sel[0]) && b.date == PeriodLabel(lib, g, Time(sel[0]))
  {
    if sel == [] then Period("", NoTotals, 0, [], map[])
    else if |sel| == 1 then AddPost(NewPeriod(lib, g, sel[0]), sel[0])
    else AddPost(PeriodOf(lib, g, sel[..|sel| - 1]), sel[|sel| - 1])
  }

  function PeriodFor(lib: DateLib, g: Timeframe, posts: seq<Post>): string -> Period {
    k => PeriodOf(lib, g, Select(posts, KeyOf(lib, g), k))
  }

  /** The periods of `posts`, in the order their keys are first seen. */
  function Periods(lib: DateLib, g: Timeframe, posts: seq<Post>): (ps: seq<Period>)
    ensures |ps| == |KeysInOrder(posts, KeyOf(lib, g))|
    ensures forall i :: 0 <= i < |ps| ==> ps[i].sums.posts >= 1
  {
    var ks := KeysInOrder(posts, KeyOf(lib, g));
    var ps := MapSeq(ks, PeriodFor(lib, g, posts));
    assert forall i :: 0 <= i < |ps| ==> ps[i].sums.posts >= 1 by {
      forall i | 0 <= i < |ps| ensures ps[i].sums.posts >= 1 {
        SelectNonEmptyIffSeen(posts, KeyOf(lib, g), ks[i]);
      }
    }
    ps
  }

  lemma {:induction false} TotalsSnoc(s: seq<Post>, p: Post)
    ensures TotalsOf(s + [p]) == Add(TotalsOf(s), PostTotals(p))
  {
    SumWSnoc(s, p, Likes);
    SumWSnoc(s, p, Comments);
    SumWSnoc(s, p, Engagement);
  }

  lemma {:induction false} TypeTotalsSnoc(sel: seq<Post>, p: Post, u: string)
    ensures TotalsOf(Select(sel + [p], TypeOf, u)) ==
      if u == TypeOf(p) then Add(TotalsOf(Select(sel, TypeOf, u)), PostTotals(p))
      else TotalsOf(Select(sel, TypeOf, u))
  {
    SelectSnoc(sel, p, TypeOf, u);
    if u == TypeOf(p) {
      TotalsSnoc(Select(sel, TypeOf, u), p);
    } else {
      assert Select(sel, TypeOf, u) + [] == Select(sel, TypeOf, u);
    }
  }

  /** `b` is, by definition, the period of the posts `sel`: the label and timestamp of its first
      post, the totals of all of them, their content types in first-seen order, and per type
      exactly the totals of the posts of that type. */
  ghost predicate Describes(lib: DateLib, g: Timeframe, b: Period, sel: seq<Post>) {
    sel != [] &&
    b.date == PeriodLabel(lib, g, Time(sel[0])) &&
    b.timestamp == Time(sel[0]) &&
    b.sums == TotalsOf(sel) &&
    b.types == KeysInOrder(sel, TypeOf) &&
    (forall t :: t in b.byType <==> t in KeysInOrder(sel, TypeOf)) &&
    (forall t :: t in b.byType ==> b.byType[t] == TotalsOf(Select(sel, TypeOf, t)))
  }

  /** Adding a post keeps a period in step with its posts. */
  lemma {:induction false} DescribesSnoc(lib: DateLib, g: Timeframe, b: Period, sel: seq<Post>, p: Post)
    requires Describes(lib, g, b, sel)
    ensures Describes(lib, g, AddPost(b, p), sel + [p])
  {
    var b' := AddPost(b, p);
    assert (sel + [p])[0] == sel[0];
    TotalsSnoc(sel, p);
    KeysInOrderSnoc(sel, p, TypeOf);
    assert forall u :: u in b'.byType <==> u in KeysInOrder(sel + [p], TypeOf);
    ByTypeSnoc(b, sel, p);
  }

  /** Adding a post keeps the per-type totals of a period in step with its posts. */
  lemma {:induction false} ByTypeSnoc(b: Period, sel: seq<Post>, p: Post)
    requires forall t :: t in b.byType <==> t in KeysInOrder(sel, TypeOf)
    requires forall t :: t in b.byType ==> b.byType[t] == TotalsOf(Select(sel, TypeOf, t))
    ensures var b' := AddPost(b, p);
      forall u :: u in b'.byType ==> b'.byType[u] == TotalsOf(Select(sel + [p], TypeOf, u))
  {
    var t := TypeOf(p);
    var b' := AddPost(b, p);
    forall u | u in b'.byType
      ensures b'.byType[u] == TotalsOf(Select(sel + [p], TypeOf, u))
    {
      TypeTotalsSnoc(sel, p, u);
      if u != t {
        assert u in b.byType && b'.byType[u] == b.byType[u];
      } else if t in b.byType {
        assert b'.byType[u] == Add(b.byType[t], PostTotals(p));
      } else {
        assert b'.byType[u] == Add(NoTotals, PostTotals(p));
        SelectNonEmptyIffSeen(sel, TypeOf, t);
        assert Select(sel, TypeOf, t) == [];
      }
    }
  }

  /** The period of one post is described by that post. */
  lemma {:induction false} DescribesSingle(lib: DateLib, g: Timeframe, p: Post)
    ensures Describes(lib, g, AddPost(NewPeriod(lib, g, p), p), [p])
  {
    var t := TypeOf(p);
    var b := AddPost(NewPeriod(lib, g, p), p);
    assert b.byType == map[t := PostTotals(p)];
    assert [] + [p] == [p];
    assert TotalsOf([p]) == PostTotals(p) by {
      TotalsSnoc([], p);
    }
    assert KeysInOrder([p], TypeOf) == [t] by {
      KeysInOrderSnoc([], p, TypeOf);
    }
    assert Select([p], TypeOf, t) == [p] by {
      SelectSnoc([], p, TypeOf, t);
    }
  }

  /** The accumulated period of some posts is the period they describe. */
  lemma {:induction false} PeriodOfMeaning(lib: DateLib, g: Timeframe, sel: seq<Post>)
    requires sel != []
    ensures Describes(lib, g, PeriodOf(lib, g, sel), sel)
  {
    var s' := sel[..|sel| - 1];
    var p := sel[|sel| - 1];
    assert sel == s' + [p];
    if |sel| == 1 {
      DescribesSingle(lib, g, p);
    } else {
      PeriodOfMeaning(lib, g, s');
      DescribesSnoc(lib, g, PeriodOf(lib, g, s'), s', p);
    }
  }

  /** Adding a post to the period of a non-empty `sel` gives the period of `sel` extended by it. */
  lemma {:induction false} PeriodOfSnoc(lib: DateLib, g: Timeframe, sel: seq<Post>, p: Post)
    requires sel != []
    ensures PeriodOf(lib, g, sel + [p]) == AddPost(PeriodOf(lib, g, sel), p)
  {
    assert (sel + [p])[..|sel|] == sel;
  }

  /** The accumulator of the grouping after the posts `seen` holds, for every key seen, the
      period of the posts with that key. */
  ghost predicate GroupsOf(lib: DateLib, g: Timeframe, seen: seq<Post>, acc: map<string, Period>) {
    (forall k :: k in acc <==> k in KeysInOrder(seen, KeyOf(lib, g))) &&
    (forall k :: k in acc ==> acc[k] == PeriodOf(lib, g, Select(seen, KeyOf(lib, g), k)))
  }

  /** One step of the grouping keeps the accumulator in step with the posts seen. */
  lemma {:induction false} GroupStep(lib: DateLib, g: Timeframe, seen: seq<Post>, p: Post, acc: map<string, Period>)
    requires GroupsOf(lib, g, seen, acc)
    ensures var k := PeriodKey(lib, g, Time(p));
      GroupsOf(lib, g, seen + [p], acc[k := AddPost(if k in acc then acc[k] else NewPeriod(lib, g, p), p)])
  {
    var key := KeyOf(lib, g);
    var k := PeriodKey(lib, g, Time(p));
    assert key(p) == k;
    var acc' := acc[k := AddPost(if k in acc then acc[k] else NewPeriod(lib, g, p), p)];
    assert forall k' :: k' in acc' <==> k' in KeysInOrder(seen + [p], key) by {
      KeysInOrderSnoc(seen, p, key);
    }
    assert acc'[k] == PeriodOf(lib, g, Select(seen + [p], key, k)) by {
      GroupStepOwnKey(lib, g, seen, p, acc);
    }
    forall k' | k' in acc' && k' != k
      ensures acc'[k'] == PeriodOf(lib, g, Select(seen + [p], key, k'))
    {
      SelectSnoc(seen, p, key, k');
      assert Select(seen, key, k') + [] == Select(seen, key, k');
    }
    assert GroupsOf(lib, g, seen + [p], acc');
  }

  /** The period of the post's own key after the step. */
  lemma {:induction false} GroupStepOwnKey(lib: DateLib, g: Timeframe, seen: seq<Post>, p: Post, acc: map<string, Period>)
    requires GroupsOf(lib, g, seen, acc)
    ensures var k := PeriodKey(lib, g, Time(p));
      AddPost(if k in acc then acc[k] else NewPeriod(lib, g, p), p) == PeriodOf(lib, g, Select(seen + [p], KeyOf(lib, g), k))
  {
    var key := KeyOf(lib, g);
    var k := PeriodKey(lib, g, Time(p));
    assert key(p) == k;
    SelectNonEmptyIffSeen(seen, key, k);
    if k in acc {
      SelectKeyStep(lib, g, seen, p, Some(acc[k]));
    } else {
      SelectKeyStep(lib, g, seen, p, None);
    }
  }

  /** The grouping's accumulator: the keys in the order they were met, and the periods. */
  datatype Acc = Acc(order: seq<string>, groups: map<string, Period>)

  /** The accumulator after one more post. */
  function Step(lib: DateLib, g: Timeframe, a: Acc, p: Post): Acc {
    var k := PeriodKey(lib, g, Time(p));
    Acc(if k in a.groups then a.order else a.order + [k],
        a.groups[k := AddPost(if k in a.groups then a.groups[k] else NewPeriod(lib, g, p), p)])
  }

  /** The accumulator after the posts `s`, one step at a time. */
  ghost function Fold(lib: DateLib, g: Timeframe, s: seq<Post>): Acc {
    if s == [] then Acc([], map[]) else Step(lib, g, Fold(lib, g, s[..|s| - 1]), s[|s| - 1])
  }

  /** The step-by-step accumulator lists the keys in first-seen order and holds, per key, the
      period of the posts with that key. */
  lemma {:induction false} FoldIsGrouping(lib: DateLib, g: Timeframe, s: seq<Post>)
    ensures Fold(lib, g, s).order == KeysInOrder(s, KeyOf(lib, g))
    ensures GroupsOf(lib, g, s, Fold(lib, g, s).groups)
  {
    if s != [] {
      var s' := s[..|s| - 1];
      var p := s[|s| - 1];
      assert s == s' + [p];
      FoldIsGrouping(lib, g, s');
      GroupStep(lib, g, s', p, Fold(lib, g, s').groups);
      KeysInOrderSnoc(s', p, KeyOf(lib, g));
    }
  }

  /** The period of the key of `p` after `p`, from the period before it (`None` if new). */
  lemma {:induction false} SelectKeyStep(lib: DateLib, g: Timeframe, seen: seq<Post>, p: Post, before: Option<Period>)
    requires var sel := Select(seen, KeyOf(lib, g), KeyOf(lib, g)(p));
      if sel == [] then before == None else before == Some(PeriodOf(lib, g, sel))
    ensures AddPost(before.GetOr(NewPeriod(lib, g, p)), p)
      == PeriodOf(lib, g, Select(seen + [p], KeyOf(lib, g), KeyOf(lib, g)(p)))
  {
    var key := KeyOf(lib, g);
    var sel := Select(seen, key, key(p));
    SelectSnoc(seen, p, key, key(p));
    if sel == [] {
      assert [] + [p] == [p];
    } else {
      PeriodOfSnoc(lib, g, sel, p);
    }
  }

  /** Groups the posts by period, as the accumulating `reduce` does: a period is opened when its
      key is first met, and each post is added to its period and to its type within it. The
      periods come out in the order their keys were first seen (`Object.values` of an object
      whose keys are not integer-like follows insertion order). */
  method GroupByPeriod(lib: DateLib, g: Timeframe, posts: seq<Post>) returns (periods: seq<Period>)
    ensures periods == Periods(lib, g, posts)
  {
    var order, acc := Accumulate(lib, g, posts);
    FoldInOrder(lib, g, posts);
    periods := ValuesInOrder(order, acc);
  }

  /** The `reduce` itself: the keys in insertion order and the keyed accumulator. */
  method Accumulate(lib: DateLib, g: Timeframe, posts: seq<Post>) returns (order: seq<string>, acc: map<string, Period>)
    ensures Acc(order, acc) == Fold(lib, g, posts)
  {
    order := [];
    acc := map[];
    var i := 0;
    while i < |posts|
      invariant 0 <= i <= |posts|
      invariant Acc(order, acc) == Fold(lib, g, posts[..i])
    {
      var p := posts[i];
      var k := PeriodKey(lib, g, Time(p));
      ghost var before := Acc(order, acc);
      if k !in acc {
        acc := acc[k := NewPeriod(lib, g, p)];
        order := order + [k];
        UpdateTwice(before.groups, k, NewPeriod(lib, g, p), AddPost(acc[k], p));
      }
      acc := acc[k := AddPost(acc[k], p)];
      assert acc == before.groups[k := AddPost(if k in before.groups then before.groups[k] else NewPeriod(lib, g, p), p)];
      FoldPrefix(lib, g, posts, i);
      i := i + 1;
    }
    assert posts[..i] == posts;
  }

  lemma {:induction false} UpdateTwice<K, V>(m: map<K, V>, k: K, u: V, v: V)
    ensures m[k := u][k := v] == m[k := v]
  {
  }

  /** The accumulator after one more post of `s`. */
  lemma {:induction false} FoldPrefix(lib: DateLib, g: Timeframe, s: seq<Post>, i: int)
    requires 0 <= i < |s|
    ensures Fold(lib, g, s[..i + 1]) == Step(lib, g, Fold(lib, g, s[..i]), s[i])
  {
    assert s[..i + 1][..i] == s[..i];
  }

  /** The final accumulator, listed in its key order, is the periods. */
  lemma {:induction false} FoldInOrder(lib: DateLib, g: Timeframe, posts: seq<Post>)
    ensures var a := Fold(lib, g, posts);
      (forall i :: 0 <= i < |a.order| ==> a.order[i] in a.groups) &&
      ValuesInOrder(a.order, a.groups) == Periods(lib, g, posts)
  {
    FoldIsGrouping(lib, g, posts);
    GroupsInOrder(lib, g, posts, Fold(lib, g, posts).groups);
  }

  /** Listing the final accumulator in first-seen key order gives the periods. */
  lemma {:induction false} GroupsInOrder(lib: DateLib, g: Timeframe, posts: seq<Post>, acc: map<string, Period>)
    requires GroupsOf(lib, g, posts, acc)
    ensures forall i :: 0 <= i < |KeysInOrder(posts, KeyOf(lib, g))| ==> KeysInOrder(posts, KeyOf(lib, g))[i] in acc
    ensures ValuesInOrder(KeysInOrder(posts, KeyOf(lib, g)), acc) == Periods(lib, g, posts)
  {
    var ks := KeysInOrder(posts, KeyOf(lib, g));
    assert forall j :: 0 <= j < |ks| ==> ks[j] in acc by {
      forall j | 0 <= j < |ks| ensures ks[j] in acc {
        assert ks[j] in ks;
      }
    }
    var vs := ValuesInOrder(ks, acc);
    var ps := Periods(lib, g, posts);
    assert |vs| == |ps|;
    assert forall j :: 0 <= j < |vs| ==> vs[j] == ps[j] by {
      forall j | 0 <= j < |vs| ensures vs[j] == ps[j] {
        assert ks[j] in ks;
        assert ps[j] == PeriodFor(lib, g, posts)(ks[j]);
      }
    }
    assert vs == ps;
  }

  // ---------------------------------------------------------------- what the periods hold

  function PostCount(b: Period): int { b.sums.posts }

  /** Every grouped post lands in exactly one period: the periods' post counts add up to the
      number of posts grouped. */
  lemma {:induction false} PeriodsCountPosts(lib: DateLib, g: Timeframe, posts: seq<Post>)
    ensures SumW(Periods(lib, g, posts), PostCount) == |posts|
  {
    var key := KeyOf(lib, g);
    var ks := KeysInOrder(posts, key);
    forall i | 0 <= i < |ks|
      ensures |Select(posts, key, ks[i])| == PostCount(PeriodFor(lib, g, posts)(ks[i]))
    {
      var sel := Select(posts, key, ks[i]);
      if sel != [] {
        PeriodOfMeaning(lib, g, sel);
      }
    }
    SumWMap(ks, PeriodFor(lib, g, posts), PostCount, k => |Select(posts, key, k)|);
    PartitionCount(posts, key, ks);
  }

  /** The periods are listed by their keys in first-seen order, each period keyed by the
      timestamp that opened it; so no two periods share a timestamp. */
  lemma {:induction false} PeriodKeys(lib: DateLib, g: Timeframe, posts: seq<Post>)
    ensures var ps := Periods(lib, g, posts);
      (forall i :: 0 <= i < |ps| ==> PeriodKey(lib, g, ps[i].timestamp) == KeysInOrder(posts, KeyOf(lib, g))[i]) &&
      (forall i, j :: 0 <= i < j < |ps| ==> ps[i].timestamp != ps[j].timestamp)
  {
    var key := KeyOf(lib, g);
    var ks := KeysInOrder(posts, key);
    var ps := Periods(lib, g, posts);
    forall i | 0 <= i < |ps| ensures PeriodKey(lib, g, ps[i].timestamp) == ks[i] {
      var sel := Select(posts, key, ks[i]);
      assert ks[i] in ks;
      SelectNonEmptyIffSeen(posts, key, ks[i]);
      PeriodOfMeaning(lib, g, sel);
      assert key(sel[0]) == ks[i];
    }
  }

  /** The totals of some posts count each post's engagement as its likes plus its comments. */
  lemma {:induction false} TotalsEngagement(s: seq<Post>)
    ensures TotalsOf(s).engagement == TotalsOf(s).likes + TotalsOf(s).comments
  {
    SumWAdd(s, Likes, Comments, Engagement);
  }

  /** What every accumulated period satisfies: its types are listed once each, in the order
      they were met, each listed type has at least one post, and engagement sums are likes
      plus comments. */
  ghost predicate WellFormed(b: Period) {
    Distinct(b.types) &&
    (forall t :: t in b.byType <==> t in b.types) &&
    (forall t :: t in b.byType ==> b.byType[t].posts >= 1) &&
    b.sums.engagement == b.sums.likes + b.sums.comments &&
    (forall t :: t in b.byType ==> b.byType[t].engagement == b.byType[t].likes + b.byType[t].comments)
  }

  lemma {:induction false} PeriodOfWellFormed(lib: DateLib, g: Timeframe, sel: seq<Post>)
    requires sel != []
    ensures WellFormed(PeriodOf(lib, g, sel))
  {
    var b := PeriodOf(lib, g, sel);
    PeriodOfMeaning(lib, g, sel);
    TotalsEngagement(sel);
    forall t | t in b.byType
      ensures b.byType[t].posts >= 1
      ensures b.byType[t].engagement == b.byType[t].likes + b.byType[t].comments
    {
      SelectNonEmptyIffSeen(sel, TypeOf, t);
      TotalsEngagement(Select(sel, TypeOf, t));
    }
  }

  /** Every period is well formed and holds at least one post. */
  lemma {:induction false} PeriodsWellFormed(lib: DateLib, g: Timeframe, posts: seq<Post>)
    ensures var ps := Periods(lib, g, posts);
      forall i :: 0 <= i < |ps| ==> WellFormed(ps[i]) && ps[i].sums.posts >= 1
  {
    var key := KeyOf(lib, g);
    var ks := KeysInOrder(posts, key);
    var ps := Periods(lib, g, posts);
    forall i | 0 <= i < |ps| ensures WellFormed(ps[i]) && ps[i].sums.posts >= 1 {
      var sel := Select(posts, key, ks[i]);
      assert ks[i] in ks;
      SelectNonEmptyIffSeen(posts, key, ks[i]);
      PeriodOfWellFormed(lib, g, sel);
      PeriodOfMeaning(lib, g, sel);
    }
  }

  function TypePosts(b: Period): string -> int {
    t => if t in b.byType then b.byType[t].posts else 0
  }

  /** Within a period, the post counts of its content types add up to its post count. */
  lemma {:induction false} TypeCountsSumToPosts(lib: DateLib, g: Timeframe, sel: seq<Post>)
    requires sel != []
    ensures var b := PeriodOf(lib, g, sel); SumW(b.types, TypePosts(b)) == b.sums.posts
  {
    var b := PeriodOf(lib, g, sel);
    PeriodOfMeaning(lib, g, sel);
    var ks := KeysInOrder(sel, TypeOf);
    PartitionCount(sel, TypeOf, ks);
    forall i | 0 <= i < |ks| ensures TypePosts(b)(ks[i]) == |Select(sel, TypeOf, ks[i])| {
      assert ks[i] in ks;
    }
    SumWPointwise(ks, TypePosts(b), t => |Select(sel, TypeOf, t)|);
  }

  /** A post with no content type, or an empty one, is counted in its period under "Other". */
  lemma {:induction false} MissingTypeIsOther(lib: DateLib, g: Timeframe, sel: seq<Post>, i: int)
    requires 0 <= i < |sel| && (sel[i].contentType.None? || sel[i].contentType == Some(""))
    ensures "Other" in PeriodOf(lib, g, sel).byType
  {
    PeriodOfMeaning(lib, g, sel);
    assert TypeOf(sel[i]) == "Other";
  }

  // ---------------------------------------------------------------- averages

  /** `Math.round(a / b)` for a positive `b`: the nearest integer to `a / b`, halves rounded up. */
  function RoundDiv(a: int, b: int): (q: int)
    requires b > 0
    ensures 2 * b * q <= 2 * a + b < 2 * b * q + 2 * b
  {
    (2 * a + b) / (2 * b)
  }

  /** The same, over the reals: the result is the floor of `a / b + 1/2`. */
  lemma {:induction false} RoundDivIsRound(a: int, b: int)
    requires b > 0
    ensures (RoundDiv(a, b) as real) <= (a as real) / (b as real) + 0.5 < (RoundDiv(a, b) as real) + 1.0
  {
    var q := RoundDiv(a, b);
    var rb, rq, ra := b as real, q as real, a as real;
    var x := ra / rb;
    assert x * rb == ra;
    assert (2.0 * x + 1.0) * rb == 2.0 * ra + rb;
    CastBounds(a, b, q);
    assert (2.0 * rq) * rb <= 2.0 * ra + rb < (2.0 * rq + 2.0) * rb;
    ScaleLe(2.0 * rq, 2.0 * x + 1.0, rb);
    ScaleLt(2.0 * x + 1.0, 2.0 * rq + 2.0, rb);
  }

  /** The integer bounds of `RoundDiv`, read over the reals. */
  lemma {:induction false} CastBounds(a: int, b: int, q: int)
    requires 2 * b * q <= 2 * a + b < 2 * b * q + 2 * b
    ensures var rb, rq, ra := b as real, q as real, a as real;
      (2.0 * rq) * rb <= 2.0 * ra + rb < (2.0 * rq + 2.0) * rb
  {
    var rb, rq, ra := b as real, q as real, a as real;
    assert (b * q) as real == rb * rq;
    assert (2 * b * q) as real == (2.0 * rq) * rb;
    assert (2 * b * q + 2 * b) as real == (2.0 * rq + 2.0) * rb;
  }

  lemma {:induction false} ScaleLe(u: real, v: real, c: real)
    requires c > 0.0 && u * c <= v * c
    ensures u <= v
  {
  }

  lemma {:induction false} ScaleLt(u: real, v: real, c: real)
    requires c > 0.0 && u * c < v * c
    ensures u < v
  {
  }

  /** The rounded average of values that all lie between `lo` and `hi` lies between them too. */
  lemma {:induction false} RoundedAverageWithin(s: seq<Post>, w: Post -> int, lo: int, hi: int)
    requires s != []
    requires forall i :: 0 <= i < |s| ==> lo <= w(s[i]) <= hi
    ensures lo <= RoundDiv(SumW(s, w), |s|) <= hi
  {
    SumWBounds(s, w, lo, hi);
    RoundDivWithin(SumW(s, w), |s|, lo, hi);
  }

  /** A rounded quotient of a sum lying between `n * lo` and `n * hi` lies between `lo` and `hi`. */
  lemma {:induction false} RoundDivWithin(sum: int, n: int, lo: int, hi: int)
    requires n > 0 && n * lo <= sum <= n * hi
    ensures lo <= RoundDiv(sum, n) <= hi
  {
    var q := RoundDiv(sum, n);
    assert 2 * n * q <= 2 * sum + n < 2 * n * q + 2 * n;
    assert 2 * n * (q + 1) == 2 * n * q + 2 * n;
    assert 2 * n * lo == 2 * (n * lo);
    assert 2 * n * (hi + 1) == 2 * (n * hi) + 2 * n;
    if q < lo {
      MulLe(2 * n, q + 1, lo);
      assert false;
    }
    if q > hi {
      MulLe(2 * n, hi + 1, q);
      assert false;
    }
  }

  lemma {:induction false} MulLe(n: int, a: int, b: int)
    requires n >= 0 && a <= b
    ensures n * a <= n * b
  {
    assert n * b - n * a == n * (b - a);
  }

  /** One of the four figures summed per period and per type. */
  datatype Measure = PostsM | LikesM | CommentsM | EngagementM

  /** What one post contributes to a figure. */
  function Weight(m: Measure): Post -> int {
    match m
    case PostsM => Unit
    case LikesM => Likes
    case CommentsM => Comments
    case EngagementM => Engagement
  }

  function Get(t: Totals, m: Measure): int {
    match m
    case PostsM => t.posts
    case LikesM => t.likes
    case CommentsM => t.comments
    case EngagementM => t.engagement
  }

  /** Each figure of the totals of some posts is the sum of what each post contributes to it. */
  lemma {:induction false} GetTotalsOf(s: seq<Post>, m: Measure)
    ensures Get(TotalsOf(s), m) == SumW(s, Weight(m))
  {
    if m == PostsM {
      SumUnitIsLength(s);
    }
  }

  /** `metric.posts ? Math.round(sum / metric.posts) : 0`. */
  function Average(sum: int, n: int): int {
    if n > 0 then RoundDiv(sum, n) else 0
  }

  /** A period as the time chart shows it: likes, comments and engagement averaged per post. */
  function Averaged(b: Period): (a: Period)
    ensures a.date == b.date && a.timestamp == b.timestamp && a.types == b.types && a.byType == b.byType
    ensures a.sums.posts == b.sums.posts
    ensures b.sums.posts > 0 ==>
      var n := b.sums.posts;
      && 2 * n * a.sums.likes <= 2 * b.sums.likes + n < 2 * n * a.sums.likes + 2 * n
      && 2 * n * a.sums.comments <= 2 * b.sums.comments + n < 2 * n * a.sums.comments + 2 * n
      && 2 * n * a.sums.engagement <= 2 * b.sums.engagement + n < 2 * n * a.sums.engagement + 2 * n
  {
    b.(sums := Totals(b.sums.posts, Average(b.sums.likes, b.sums.posts),
                      Average(b.sums.comments, b.sums.posts), Average(b.sums.engagement, b.sums.posts)))
  }

  /** A period's averaged likes, comments or engagement lie between the least and the greatest
      value of that figure among the posts of the period. */
  lemma {:induction false} PeriodAverageWithin(lib: DateLib, g: Timeframe, posts: seq<Post>, k: string, m: Measure, lo: int, hi: int)
    requires m != PostsM
    requires k in KeysInOrder(posts, KeyOf(lib, g))
    requires var sel := Select(posts, KeyOf(lib, g), k); forall i :: 0 <= i < |sel| ==> lo <= Weight(m)(sel[i]) <= hi
    ensures lo <= Get(Averaged(PeriodFor(lib, g, posts)(k)).sums, m) <= hi
  {
    var sel := Select(posts, KeyOf(lib, g), k);
    SelectNonEmptyIffSeen(posts, KeyOf(lib, g), k);
    PeriodOfMeaning(lib, g, sel);
    RoundedAverageWithin(sel, Weight(m), lo, hi);
  }

  // ---------------------------------------------------------------- ordering

  predicate SortedByTime(bs: seq<Period>) {
    forall i, j :: 0 <= i < j < |bs| ==> bs[i].timestamp <= bs[j].timestamp
  }

  /** Inserts `b` after every period that is not later than it. */
  function Insert(b: Period, bs: seq<Period>): (r: seq<Period>)
    requires SortedByTime(bs)
    ensures r != [] && (r[0] == b || (bs != [] && r[0] == bs[0]))
    ensures SortedByTime(r) && multiset(r) == multiset(bs) + multiset{b}
  {
    if bs == [] then [b]
    else if b.timestamp < bs[0].timestamp then [b] + bs
    else
      SortedTail(bs);
      var r := Insert(b, bs[1..]);
      InsertBehind(b, bs, r);
      [bs[0]] + r
  }

  lemma {:induction false} SortedTail(bs: seq<Period>)
    requires bs != [] && SortedByTime(bs)
    ensures SortedByTime(bs[1..])
  {
    forall i, j | 0 <= i < j < |bs| - 1 ensures bs[1..][i].timestamp <= bs[1..][j].timestamp {
      assert bs[1..][i] == bs[i + 1] && bs[1..][j] == bs[j + 1];
    }
  }

  /** The step of `Insert` that keeps the first period in front. */
  lemma {:induction false} InsertBehind(b: Period, bs: seq<Period>, r: seq<Period>)
    requires bs != [] && SortedByTime(bs) && bs[0].timestamp <= b.timestamp
    requires SortedByTime(r) && multiset(r) == multiset(bs[1..]) + multiset{b}
    ensures SortedByTime([bs[0]] + r) && multiset([bs[0]] + r) == multiset(bs) + multiset{b}
  {
    assert bs == [bs[0]] + bs[1..];
    forall k | 0 <= k < |r| ensures bs[0].timestamp <= r[k].timestamp {
      assert r[k] in multiset(r);
      if r[k] != b {
        assert r[k] in multiset(bs[1..]);
        var j :| 0 <= j < |bs[1..]| && bs[1..][j] == r[k];
        assert bs[1..][j] == bs[j + 1];
      }
    }
    var s := [bs[0]] + r;
    forall i, j | 0 <= i < j < |s| ensures s[i].timestamp <= s[j].timestamp {
      if i == 0 {
        assert s[j] == r[j - 1];
      } else {
        assert s[i] == r[i - 1] && s[j] == r[j - 1];
      }
    }
  }

  /** The periods ordered by the timestamp that opened them (`sort` with a numeric comparator,
      which keeps equal elements in their order). */
  function SortByTime(bs: seq<Period>): (r: seq<Period>)
    ensures SortedByTime(r) && multiset(r) == multiset(bs)
  {
    if bs == [] then [] else
      assert bs == bs[..|bs| - 1] + [bs[|bs| - 1]];
      Insert(bs[|bs| - 1], SortByTime(bs[..|bs| - 1]))
  }
}
