/** The top-post and engagement panel: the most liked post, the engagement of the current week
    against the previous one, and the posts and likes by hour of the day. */
module TopPost {
  import opened Wrappers
  import opened Grouping

  /** The metadata of one post: a timestamp in milliseconds, its like count and its view count
      (`None` for a missing one). */
  datatype Post = Post(timestamp: int, likes: nat, views: Option<int>)

  /** The calendar calls the panel makes, as functions of a timestamp: the whole number of days
      since the first of January of its year, and the hour of the day. */
  datatype Clock = Clock(dayOfYear: int -> nat, hourOf: int -> int)

  /** The panel shows a placeholder instead of statistics when there are no posts. */
  datatype Panel = NoData | Stats(top: nat, weekly: Weekly, engagementUp: bool, postsByHour: seq<int>, engagementByHour: seq<int>, bestHour: nat)

  // ---------------------------------------------------------------- week numbers

  /** The week number of a day of the year: the day count divided by seven, rounded up. */
  function WeekNumber(days: nat): (w: nat)
    ensures w == 0 <==> days == 0
    ensures days > 0 ==> 7 * (w - 1) < days <= 7 * w
  {
    (days + 6) / 7
  }

  function WeekOf(c: Clock, t: int): nat {
    WeekNumber(c.dayOfYear(t))
  }

  /** Days one to seven are week one, the first of January week zero. */
  lemma {:induction false} FirstWeek(days: nat)
    ensures WeekNumber(days) == 1 <==> 1 <= days <= 7
  {
  }

  // ---------------------------------------------------------------- views

  function ValidViews(posts: seq<Post>): (vs: seq<int>)
    ensures forall i :: 0 <= i < |vs| ==> vs[i] > 0
  {
    if posts == [] then [] else
      var vs := ValidViews(posts[..|posts| - 1]);
      match posts[|posts| - 1].views
      case Some(v) => if v > 0 then vs + [v] else vs
      case None => vs
  }

  function SumInts(vs: seq<int>): int {
    if vs == [] then 0 else SumInts(vs[..|vs| - 1]) + vs[|vs| - 1]
  }

  /** The mean of the positive view counts, zero when there are none. */
  function AverageViews(posts: seq<Post>): (a: real)
    ensures a >= 0.0
    ensures a == 0.0 <==> ValidViews(posts) == []
  {
    var vs := ValidViews(posts);
    if vs == [] then 0.0 else
      SumPositive(vs);
      assert SumInts(vs) as real > 0.0;
      SumInts(vs) as real / |vs| as real
  }

  const FallbackViews: real := 20.0

  function HasViews(v: Option<int>): bool {
    v.Some? && v.value > 0
  }

  /** The views a post's engagement is measured against: its own if positive, else the mean of
      the positive ones if positive, else a fixed fallback. */
  function SafeViews(average: real, views: Option<int>): (v: real)
    ensures v > 0.0
    ensures HasViews(views) ==> v == views.value as real
    ensures !HasViews(views) && average > 0.0 ==> v == average
    ensures !HasViews(views) && average <= 0.0 ==> v == FallbackViews
  {
    if HasViews(views) then views.value as real
    else if average > 0.0 then average
    else FallbackViews
  }

  lemma {:induction false} SumPositive(vs: seq<int>)
    requires vs != [] && forall i :: 0 <= i < |vs| ==> vs[i] > 0
    ensures SumInts(vs) > 0
  {
    if |vs| > 1 {
      SumPositive(vs[..|vs| - 1]);
    }
  }

  lemma {:induction false} SomeValid(posts: seq<Post>, i: nat)
    requires i < |posts| && HasViews(posts[i].views)
    ensures ValidViews(posts) != []
  {
    if i < |posts| - 1 {
      assert posts[..|posts| - 1][i] == posts[i];
      SomeValid(posts[..|posts| - 1], i);
    }
  }

  /** The fixed fallback is used only when no post has a positive view count. */
  lemma {:induction false} FallbackOnlyWithoutViews(posts: seq<Post>, v: Option<int>)
    requires exists i :: 0 <= i < |posts| && HasViews(posts[i].views)
    ensures var s := SafeViews(AverageViews(posts), v);
      s == if HasViews(v) then v.value as real else AverageViews(posts)
  {
    var i :| 0 <= i < |posts| && HasViews(posts[i].views);
    SomeValid(posts, i);
    SumPositive(ValidViews(posts));
  }

  // ---------------------------------------------------------------- weekly engagement

  /** A post's likes per hundred views. */
  function Rate(average: real, p: Post): (r: real)
    ensures r >= 0.0
  {
    var v := SafeViews(average, p.views);
    assert p.likes as real / v >= 0.0;
    (p.likes as real / v) * 100.0
  }

  datatype Weekly = Weekly(current: real, previous: real, currentPosts: nat, previousPosts: nat)

  /** The fold over the posts: the rates and counts of the posts of the current week and of
      the week before it. */
  function WeeklyEngagement(c: Clock, average: real, week: int, posts: seq<Post>): (a: Weekly)
    ensures a.currentPosts + a.previousPosts <= |posts|
    ensures a.current >= 0.0 && a.previous >= 0.0
    ensures a.currentPosts == 0 ==> a.current == 0.0
    ensures a.previousPosts == 0 ==> a.previous == 0.0
  {
    if posts == [] then Weekly(0.0, 0.0, 0, 0) else
      var acc := WeeklyEngagement(c, average, week, posts[..|posts| - 1]);
      var p := posts[|posts| - 1];
      var w := WeekOf(c, p.timestamp);
      if w == week then acc.(current := acc.current + Rate(average, p), currentPosts := acc.currentPosts + 1)
      else if w == week - 1 then acc.(previous := acc.previous + Rate(average, p), previousPosts := acc.previousPosts + 1)
      else acc
  }

  function InWeek(c: Clock, week: int, p: Post): bool {
    WeekOf(c, p.timestamp) == week
  }

  function Count(posts: seq<Post>, P: Post -> bool): nat {
    if posts == [] then 0 else Count(posts[..|posts| - 1], P) + if P(posts[|posts| - 1]) then 1 else 0
  }

  function SumRates(posts: seq<Post>, P: Post -> bool, average: real): real {
    if posts == [] then 0.0 else
      SumRates(posts[..|posts| - 1], P, average) + if P(posts[|posts| - 1]) then Rate(average, posts[|posts| - 1]) else 0.0
  }

  /** The fold counts exactly the posts of each of the two weeks, sums exactly their rates, and
      never counts a post twice. */
  lemma {:induction false} WeeklyCounts(c: Clock, average: real, week: int, posts: seq<Post>)
    ensures var a := WeeklyEngagement(c, average, week, posts);
      a.currentPosts == Count(posts, p => InWeek(c, week, p)) &&
      a.previousPosts == Count(posts, p => InWeek(c, week - 1, p)) &&
      a.current == SumRates(posts, p => InWeek(c, week, p), average) &&
      a.previous == SumRates(posts, p => InWeek(c, week - 1, p), average) &&
      a.currentPosts + a.previousPosts <= |posts|
  {
    if posts != [] {
      WeeklyCounts(c, average, week, posts[..|posts| - 1]);
    }
  }

  /** The rate of a week: the mean rate of its posts, or `None` (not a number) without posts. */
  function WeekRate(sum: real, n: nat): (r: Option<real>)
    ensures r.Some? <==> n > 0
  {
    if n == 0 then None else Some(sum / n as real)
  }

  /** Engagement went up when both weeks have a rate and the current one is higher. */
  function EngagementUp(a: Weekly): (up: bool)
    ensures up <==> (a.currentPosts > 0 && a.previousPosts > 0 &&
                     a.current / a.currentPosts as real > a.previous / a.previousPosts as real)
  {
    var cur := WeekRate(a.current, a.currentPosts);
    var prev := WeekRate(a.previous, a.previousPosts);
    cur.Some? && prev.Some? && cur.value - prev.value > 0.0
  }

  // ---------------------------------------------------------------- top post

  /** The most liked post: the first of the posts with the most likes, as a strict comparison
      keeps the earlier post on a tie. */
  function TopPostIndex(posts: seq<Post>): (k: nat)
    requires posts != []
    ensures k < |posts|
    ensures forall i :: 0 <= i < |posts| ==> posts[i].likes <= posts[k].likes
    ensures forall i :: 0 <= i < k ==> posts[i].likes < posts[k].likes
  {
    if |posts| == 1 then 0 else
      var k := TopPostIndex(posts[..|posts| - 1]);
      assert forall i :: 0 <= i < |posts| - 1 ==> posts[..|posts| - 1][i] == posts[i];
      if posts[|posts| - 1].likes > posts[k].likes then |posts| - 1 else k
  }

  // ---------------------------------------------------------------- hours

  function HourKey(c: Clock): Post -> int {
    (p: Post) => c.hourOf(p.timestamp)
  }

  function LikesOf(p: Post): int { p.likes }

  /** The hours of the day, in order. */
  function Hours(): (hs: seq<int>)
    ensures |hs| == 24 && Distinct(hs) && forall h :: h in hs <==> 0 <= h < 24
  {
    var hs := seq(24, h => h);
    assert forall i :: 0 <= i < 24 ==> hs[i] == i;
    assert forall h :: 0 <= h < 24 ==> h in hs by {
      forall h | 0 <= h < 24 ensures h in hs { assert hs[h] == h; }
    }
    hs
  }

  /** How many posts fall in hour `h`, and how many likes they have. */
  function PostsAt(c: Clock, posts: seq<Post>, h: int): nat {
    |Select(posts, HourKey(c), h)|
  }

  function LikesAt(c: Clock, posts: seq<Post>, h: int): int {
    SumW(Select(posts, HourKey(c), h), LikesOf)
  }

  predicate HoursInDay(c: Clock, posts: seq<Post>) {
    forall i :: 0 <= i < |posts| ==> 0 <= c.hourOf(posts[i].timestamp) < 24
  }

  /** Counts the posts and sums the likes of each hour of the day, in two arrays of 24 bins. */
  method HourlyHistogram(c: Clock, posts: seq<Post>) returns (postsByHour: array<int>, engagementByHour: array<int>)
    requires HoursInDay(c, posts)
    ensures fresh(postsByHour) && fresh(engagementByHour)
    ensures postsByHour.Length == 24 && engagementByHour.Length == 24
    ensures forall h :: 0 <= h < 24 ==> postsByHour[h] == PostsAt(c, posts, h)
    ensures forall h :: 0 <= h < 24 ==> engagementByHour[h] == LikesAt(c, posts, h)
  {
    postsByHour := new int[24](_ => 0);
    engagementByHour := new int[24](_ => 0);
    var i := 0;
    while i < |posts|
      invariant 0 <= i <= |posts|
      invariant forall h :: 0 <= h < 24 ==> postsByHour[h] == PostsAt(c, posts[..i], h)
      invariant forall h :: 0 <= h < 24 ==> engagementByHour[h] == LikesAt(c, posts[..i], h)
    {
      var p := posts[i];
      var hour := c.hourOf(p.timestamp);
      postsByHour[hour] := postsByHour[hour] + 1;
      engagementByHour[hour] := engagementByHour[hour] + p.likes;
      forall h | 0 <= h < 24
        ensures PostsAt(c, posts[..i + 1], h) == PostsAt(c, posts[..i], h) + (if h == hour then 1 else 0)
        ensures LikesAt(c, posts[..i + 1], h) == LikesAt(c, posts[..i], h) + (if h == hour then p.likes else 0)
      {
        HourStep(c, posts, i, h);
      }
      i := i + 1;
    }
    assert posts[..i] == posts;
  }

  /** One more post moves only its own hour's bin, by one post and its likes. */
  lemma {:induction false} HourStep(c: Clock, posts: seq<Post>, i: nat, h: int)
    requires i < |posts|
    ensures var p := posts[i];
      PostsAt(c, posts[..i + 1], h) == PostsAt(c, posts[..i], h) + (if h == c.hourOf(p.timestamp) then 1 else 0) &&
      LikesAt(c, posts[..i + 1], h) == LikesAt(c, posts[..i], h) + (if h == c.hourOf(p.timestamp) then p.likes else 0)
  {
    var p := posts[i];
    TakeSnoc(posts, i);
    SelectSnoc(posts[..i], p, HourKey(c), h);
    SumWSnoc(Select(posts[..i], HourKey(c), h), p, LikesOf);
    assert Select(posts[..i], HourKey(c), h) + [] == Select(posts[..i], HourKey(c), h);
  }

  /** Every post is in exactly one bin: the bins add up to the number of posts, and their likes
      to the likes of all posts. */
  lemma {:induction false} BinsCoverPosts(c: Clock, posts: seq<Post>)
    requires HoursInDay(c, posts)
    ensures SumW(Hours(), h => PostsAt(c, posts, h)) == |posts|
    ensures SumW(Hours(), h => LikesAt(c, posts, h)) == SumW(posts, LikesOf)
  {
    var hs := Hours();
    assert forall i :: 0 <= i < |posts| ==> HourKey(c)(posts[i]) in hs;
    PartitionCount(posts, HourKey(c), hs);
    PartitionSum(posts, HourKey(c), LikesOf, hs);
    SumWPointwise(hs, h => PostsAt(c, posts, h), h => |Select(posts, HourKey(c), h)|);
    SumWPointwise(hs, h => LikesAt(c, posts, h), h => SumW(Select(posts, HourKey(c), h), LikesOf));
  }

  /** The best hour: the first index holding the greatest value. */
  function BestHour(e: seq<int>): (k: nat)
    requires e != []
    ensures k < |e|
    ensures forall j :: 0 <= j < |e| ==> e[j] <= e[k]
    ensures forall j :: 0 <= j < k ==> e[j] < e[k]
  {
    if |e| == 1 then 0 else
      var k := BestHour(e[..|e| - 1]);
      assert forall j :: 0 <= j < |e| - 1 ==> e[..|e| - 1][j] == e[j];
      if e[|e| - 1] > e[k] then |e| - 1 else k
  }

  /** The panel for the given posts, with `now` the current time. */
  method Compute(c: Clock, posts: seq<Post>, now: int) returns (panel: Panel)
    requires HoursInDay(c, posts)
    ensures panel == NoData <==> posts == []
    ensures panel.Stats? ==>
      panel.top == TopPostIndex(posts) &&
      panel.weekly == WeeklyEngagement(c, AverageViews(posts), WeekOf(c, now), posts) &&
      panel.engagementUp == EngagementUp(panel.weekly) &&
      |panel.postsByHour| == 24 && |panel.engagementByHour| == 24 &&
      (forall h :: 0 <= h < 24 ==> panel.postsByHour[h] == PostsAt(c, posts, h)) &&
      (forall h :: 0 <= h < 24 ==> panel.engagementByHour[h] == LikesAt(c, posts, h)) &&
      panel.bestHour == BestHour(panel.engagementByHour)
  {
    if posts == [] {
      return NoData;
    }
    var weekly := WeeklyEngagement(c, AverageViews(posts), WeekOf(c, now), posts);
    var byHour, likesByHour := HourlyHistogram(c, posts);
    var e := likesByHour[..];
    panel := Stats(TopPostIndex(posts), weekly, EngagementUp(weekly), byHour[..], e, BestHour(e));
  }
}
