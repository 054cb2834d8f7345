/** One worker of the single-profile fetcher: a pair of loaders with failover, and the loop that
    fills one chunk of posts, retrying on failures and skipping posts already taken. The
    network is replaced by the passes it would make over the profile's posts: each pass is the
    posts that `profile.get_posts()` yields before it either runs out or raises. */
module ChunkFetch {
  import opened Ingest

  /** An instaloader session; only its identity matters here. */
  datatype Loader = Loader(name: string)

  /** The loader index after one switch. */
  function Switched(i: int): (j: int)
    ensures 0 <= j <= 1
    ensures 0 <= i <= 1 ==> j == 1 - i
  {
    (i + 1) % 2
  }

  /** The loader index after `n` switches from index `i`. */
  function SwitchedTimes(i: int, n: nat): int {
    if n == 0 then i else (i + n) % 2
  }

  /** One more switch is one more step of `SwitchedTimes`. */
  lemma {:induction false} SwitchStep(i: int, n: nat)
    ensures Switched(SwitchedTimes(i, n)) == SwitchedTimes(i, n + 1)
  {
    if n > 0 {
      var m := (i + n) % 2;
      assert i + n == 2 * ((i + n) / 2) + m;
      assert i + n + 1 == 2 * ((i + n) / 2) + (m + 1);
    }
  }

  /** Switching twice comes back to the same index, so with two loaders every second failure
      returns to the loader that was in use. */
  lemma {:induction false} SwitchTwiceRestores(i: int)
    requires 0 <= i <= 1
    ensures Switched(Switched(i)) == i
  {
  }

  /** After an even number of switches from a valid index the loader is the same one, after an
      odd number it is the other. */
  lemma {:induction false} SwitchedTimesParity(i: int, n: nat)
    requires 0 <= i <= 1
    ensures SwitchedTimes(i, n) == if n % 2 == 0 then i else 1 - i
  {
  }

  /** `LoaderPair`: two loaders and the index of the one in use. */
  class LoaderPair {
    const primary: Loader
    const secondary: Loader
    var currentIndex: int

    constructor(primary: Loader, secondary: Loader, currentIndex: int)
      ensures this.primary == primary && this.secondary == secondary
      ensures this.currentIndex == currentIndex
    {
      this.primary := primary;
      this.secondary := secondary;
      this.currentIndex := currentIndex;
    }

    /** The loader in use: the primary exactly when the index is 0. */
    function CurrentLoader(): (l: Loader)
      reads this
      ensures currentIndex == 0 ==> l == primary
      ensures currentIndex != 0 ==> l == secondary
      ensures l == primary || l == secondary
    {
      if currentIndex == 0 then primary else secondary
    }

    /** Moves to the other loader and returns it. */
    method SwitchLoader() returns (l: Loader)
      modifies this
      ensures currentIndex == Switched(old(currentIndex))
      ensures l == CurrentLoader()
      ensures currentIndex == 0 || currentIndex == 1
      ensures 0 <= old(currentIndex) <= 1 ==> (currentIndex == 0 <==> old(currentIndex) == 1)
    {
      currentIndex := (currentIndex + 1) % 2;
      l := CurrentLoader();
    }

    /** Two switches in a row give back the loader that was in use. */
    method SwitchTwice() returns (l: Loader)
      requires currentIndex == 0 || currentIndex == 1
      modifies this
      ensures l == CurrentLoader() == old(CurrentLoader())
      ensures currentIndex == old(currentIndex)
    {
      var _ := SwitchLoader();
      l := SwitchLoader();
    }
  }

  // ---------------------------------------------------------------- the chunk loop, specified

  /** How often a chunk may fail before it gives up. */
  const MaxRetries := 4

  /** One fetch of the profile followed by one iteration over its posts: the posts it yields,
      and whether it ends by raising (rate limit or any other error) rather than running out. */
  datatype Pass = Pass(posts: seq<RawPost>, raised: bool)

  /** What a pass over the posts changes: `current_post_index`, `posts_fetched`, the two sets
      of shortcodes, and the records put on the queue. */
  datatype Progress = Progress(
    current: int, fetched: int, shared: set<string>, chunk: set<string>, queue: seq<PostRecord>)

  /** The loop's variables: the progress, `retries`, and how many passes have been made. */
  datatype State = State(progress: Progress, retries: nat, passes: nat)

  function Start(start: int, shared: set<string>, chunk: set<string>): State {
    State(Progress(start, 0, shared, chunk, []), 0, 0)
  }

  /** `r` continues `p`: the queue only grows at its end, `current_post_index` advances by the
      number of records queued, and the two sets only grow. */
  predicate Extends(p: Progress, r: Progress) {
    && |p.queue| <= |r.queue| && r.queue[..|p.queue|] == p.queue
    && r.current - p.current == |r.queue| - |p.queue|
    && p.shared <= r.shared && p.chunk <= r.chunk
  }

  lemma {:induction false} ExtendsTrans(p: Progress, q: Progress, r: Progress)
    requires Extends(p, q) && Extends(q, r)
    ensures Extends(p, r)
  {
    assert r.queue[..|p.queue|] == r.queue[..|q.queue|][..|p.queue|];
  }

  /** The progress after taking one post, as the body of the `for` loop does when it neither
      skips nor breaks: a post whose shortcode either set holds changes nothing, any other is
      queued last. */
  function Take(p: Progress, profile: string, post: RawPost): (r: Progress)
    ensures Extends(p, r)
    ensures r == p <==> post.shortcode in p.shared || post.shortcode in p.chunk
    ensures r != p ==> r.queue == p.queue + [PostInfo(profile, post)]
  {
    var code := post.shortcode;
    if code in p.shared || code in p.chunk then p
    else p.(queue := p.queue + [PostInfo(profile, post)], chunk := p.chunk + {code},
            shared := p.shared + {code}, current := p.current + 1, fetched := p.fetched + 1)
  }

  /** The `for` loop of one pass over the posts it yields; it queues nothing once the chunk is
      full. */
  function Scan(p: Progress, profile: string, start: int, end: int, posts: seq<RawPost>): (r: Progress)
    ensures Extends(p, r)
    ensures p.current <= end ==> r.current <= end
    decreases |posts|
  {
    if posts == [] then p
    else if p.fetched < p.current - start then
      Scan(p.(fetched := p.fetched + 1), profile, start, end, posts[1..])
    else if p.current >= end then p
    else
      var q := Take(p, profile, posts[0]);
      var r := Scan(q, profile, start, end, posts[1..]);
      ExtendsTrans(p, q, r);
      r
  }

  /** The state after one pass, including the failure handling when it raised. */
  function AfterPass(st: State, profile: string, start: int, end: int, pass: Pass): State {
    var p := Scan(st.progress, profile, start, end, pass.posts);
    State(p, if pass.raised then st.retries + 1 else st.retries, st.passes + 1)
  }

  predicate Continues(st: State, end: int) {
    st.progress.current < end && st.retries < MaxRetries
  }

  /** The `while` loop, over the passes the network supplies: it only extends the progress,
      never forgets a failure, and stops early only when the chunk is full or the retries are
      used up. */
  function Run(st: State, profile: string, start: int, end: int, ps: seq<Pass>): (r: State)
    ensures Extends(st.progress, r.progress)
    ensures st.retries <= r.retries && st.passes <= r.passes <= st.passes + |ps|
    ensures r.retries - st.retries <= r.passes - st.passes
    ensures Continues(r, end) ==> r.passes == st.passes + |ps|
    decreases |ps|
  {
    if !Continues(st, end) || ps == [] then st
    else
      var next := AfterPass(st, profile, start, end, ps[0]);
      var r := Run(next, profile, start, end, ps[1..]);
      ExtendsTrans(st.progress, next.progress, r.progress);
      r
  }

  // ---------------------------------------------------------------- the chunk loop, as code

  /** `fetch_posts_chunk`: `posts_fetched`, the two shortcode sets as they are left, and the
      records put on the queue. */
  method FetchPostsChunk(pair: LoaderPair, profile: string, start: int, end: int,
                         shared: set<string>, chunk: set<string>, ps: seq<Pass>)
    returns (fetched: int, sharedIds: set<string>, chunkIds: set<string>, queue: seq<PostRecord>)
    modifies pair
    ensures var r := Run(Start(start, shared, chunk), profile, start, end, ps);
      fetched == r.progress.fetched && queue == r.progress.queue &&
      sharedIds == r.progress.shared && chunkIds == r.progress.chunk &&
      pair.currentIndex == SwitchedTimes(old(pair.currentIndex), r.retries)
  {
    var current: int, retries: nat, k: nat := start, 0, 0;
    fetched, sharedIds, chunkIds, queue := 0, shared, chunk, [];
    ghost var index0 := pair.currentIndex;
    ghost var st := Start(start, shared, chunk);
    ghost var goal := Run(st, profile, start, end, ps);
    while current < end && retries < MaxRetries && k < |ps|
      invariant 0 <= k <= |ps|
      invariant st == State(Progress(current, fetched, sharedIds, chunkIds, queue), retries, k)
      invariant Run(st, profile, start, end, ps[k..]) == goal
      invariant pair.currentIndex == SwitchedTimes(index0, retries)
      decreases |ps| - k
    {
      current, fetched, sharedIds, chunkIds, queue, retries :=
        FetchPass(pair, profile, start, end, ps[k], current, fetched, sharedIds, chunkIds, queue, retries, index0);
      ghost var next := State(Progress(current, fetched, sharedIds, chunkIds, queue), retries, k + 1);
      RunStep(st, next, profile, start, end, ps, k);
      st := next;
      k := k + 1;
      // the failure handlers' `break` once the retries are used up is the guard's
      // `retries < MaxRetries`, checked before any further pass
    }
    RunStops(st, profile, start, end, ps[k..]);
  }

  /** The body of the `for` loop when it neither skips nor breaks: a post not seen before is
      queued and its shortcode recorded. */
  method TakePost(profile: string, post: RawPost,
                  current0: int, fetched0: int, shared0: set<string>, chunk0: set<string>, queue0: seq<PostRecord>)
    returns (current: int, fetched: int, sharedIds: set<string>, chunkIds: set<string>, queue: seq<PostRecord>)
    ensures Progress(current, fetched, sharedIds, chunkIds, queue) ==
      Take(Progress(current0, fetched0, shared0, chunk0, queue0), profile, post)
  {
    current, fetched, sharedIds, chunkIds, queue := current0, fetched0, shared0, chunk0, queue0;
    var code := post.shortcode;
    if !(code in sharedIds || code in chunkIds) {
      queue := queue + [PostInfo(profile, post)];
      chunkIds := chunkIds + {code};
      sharedIds := sharedIds + {code};
      current := current + 1;
      fetched := fetched + 1;
    }
  }

  /** One iteration of the `while` loop: a pass over the posts, then, when the pass raised, the
      failure handler's switch to the other loader and one more retry. */
  method FetchPass(pair: LoaderPair, profile: string, start: int, end: int, pass: Pass,
                   current0: int, fetched0: int, shared0: set<string>, chunk0: set<string>,
                   queue0: seq<PostRecord>, retries0: nat, ghost index0: int)
    returns (current: int, fetched: int, sharedIds: set<string>, chunkIds: set<string>,
             queue: seq<PostRecord>, retries: nat)
    requires pair.currentIndex == SwitchedTimes(index0, retries0)
    modifies pair
    ensures Progress(current, fetched, sharedIds, chunkIds, queue) ==
      Scan(Progress(current0, fetched0, shared0, chunk0, queue0), profile, start, end, pass.posts)
    ensures retries == if pass.raised then retries0 + 1 else retries0
    ensures pair.currentIndex == SwitchedTimes(index0, retries)
  {
    current, fetched, sharedIds, chunkIds, queue :=
      ScanPass(profile, start, end, pass.posts, current0, fetched0, shared0, chunk0, queue0);
    retries := retries0;
    if pass.raised {
      var _ := pair.SwitchLoader();
      SwitchStep(index0, retries);
      retries := retries + 1;
    }
  }

  /** The loop's exit: once it may not continue, or no pass is left, the run is over. */
  lemma {:induction false} RunStops(st: State, profile: string, start: int, end: int, ps: seq<Pass>)
    requires !Continues(st, end) || ps == []
    ensures Run(st, profile, start, end, ps) == st
  {
  }

  /** The `for` loop of one pass, on the loop's variables. */
  method ScanPass(profile: string, start: int, end: int, posts: seq<RawPost>,
                  current0: int, fetched0: int, shared0: set<string>, chunk0: set<string>, queue0: seq<PostRecord>)
    returns (current: int, fetched: int, sharedIds: set<string>, chunkIds: set<string>, queue: seq<PostRecord>)
    ensures Progress(current, fetched, sharedIds, chunkIds, queue) ==
      Scan(Progress(current0, fetched0, shared0, chunk0, queue0), profile, start, end, posts)
  {
    current, fetched, sharedIds, chunkIds, queue := current0, fetched0, shared0, chunk0, queue0;
    ghost var goal := Scan(Progress(current0, fetched0, shared0, chunk0, queue0), profile, start, end, posts);
    var j := 0;
    while j < |posts|
      invariant 0 <= j <= |posts|
      invariant Scan(Progress(current, fetched, sharedIds, chunkIds, queue), profile, start, end, posts[j..]) == goal
    {
      ScanStep(Progress(current, fetched, sharedIds, chunkIds, queue), profile, start, end, posts, j);
      if fetched < current - start {
        fetched := fetched + 1;
      } else if current >= end {
        break;
      } else {
        current, fetched, sharedIds, chunkIds, queue :=
          TakePost(profile, posts[j], current, fetched, sharedIds, chunkIds, queue);
      }
      j := j + 1;
    }
    if j == |posts| {
      assert posts[j..] == [];
    }
  }

  /** One pass of the loop, as the specification takes it. */
  lemma {:induction false} RunStep(st: State, next: State, profile: string, start: int, end: int, ps: seq<Pass>, k: nat)
    requires k < |ps| && Continues(st, end)
    requires next == AfterPass(st, profile, start, end, ps[k])
    ensures Run(st, profile, start, end, ps[k..]) == Run(next, profile, start, end, ps[k + 1..])
  {
    RunUnfold(st, profile, start, end, ps[k..]);
    assert ps[k..][0] == ps[k] && ps[k..][1..] == ps[k + 1..];
  }

  lemma {:induction false} RunUnfold(st: State, profile: string, start: int, end: int, ps: seq<Pass>)
    requires ps != [] && Continues(st, end)
    ensures Run(st, profile, start, end, ps) == Run(AfterPass(st, profile, start, end, ps[0]), profile, start, end, ps[1..])
  {
  }

  /** One step of a pass, as the specification takes it. */
  lemma {:induction false} ScanStep(p: Progress, profile: string, start: int, end: int, posts: seq<RawPost>, j: nat)
    requires j < |posts|
    ensures Scan(p, profile, start, end, posts[j..]) ==
      if p.fetched < p.current - start then
        Scan(p.(fetched := p.fetched + 1), profile, start, end, posts[j + 1..])
      else if p.current >= end then p
      else Scan(Take(p, profile, posts[j]), profile, start, end, posts[j + 1..])
  {
    assert posts[j..][0] == posts[j] && posts[j..][1..] == posts[j + 1..];
  }

  // ---------------------------------------------------------------- what the loop guarantees

  /** The shortcodes of the queued records. */
  function Codes(q: seq<PostRecord>): set<string> {
    set i | 0 <= i < |q| :: q[i].metadata.postId
  }

  /** No two queued records have the same shortcode. */
  predicate NoRepeats(q: seq<PostRecord>) {
    forall i, j :: 0 <= i < j < |q| ==> q[i].metadata.postId != q[j].metadata.postId
  }

  /** What holds of a chunk's progress from its start on: `posts_fetched` counts exactly the
      queued posts, the queue stays within the chunk and holds each shortcode once, none of them
      seen before the chunk began, and both sets record exactly what was queued. */
  predicate Sound(p: Progress, start: int, end: int, shared0: set<string>, chunk0: set<string>) {
    && p.fetched == p.current - start == |p.queue|
    && (p.current == start || p.current <= end)
    && p.shared == shared0 + Codes(p.queue) && p.chunk == chunk0 + Codes(p.queue)
    && NoRepeats(p.queue)
    && forall i :: 0 <= i < |p.queue| ==> p.queue[i].metadata.postId !in shared0 + chunk0
  }

  lemma {:induction false} CodesSnoc(q: seq<PostRecord>, r: PostRecord)
    ensures Codes(q + [r]) == Codes(q) + {r.metadata.postId}
  {
    var q' := q + [r];
    forall x | x in Codes(q') ensures x in Codes(q) + {r.metadata.postId} {
      var i :| 0 <= i < |q'| && q'[i].metadata.postId == x;
      if i < |q| {
        assert q[i] == q'[i];
      }
    }
    forall x | x in Codes(q) ensures x in Codes(q') {
      var i :| 0 <= i < |q| && q[i].metadata.postId == x;
      assert q'[i] == q[i];
    }
    assert q'[|q|] == r;
  }

  /** Taking a post keeps the progress sound. */
  lemma {:induction false} TakeSound(p: Progress, profile: string, start: int, end: int,
                                     shared0: set<string>, chunk0: set<string>, post: RawPost)
    requires Sound(p, start, end, shared0, chunk0) && p.current < end
    ensures Sound(Take(p, profile, post), start, end, shared0, chunk0)
  {
    var code := post.shortcode;
    if !(code in p.shared || code in p.chunk) {
      var r := PostInfo(profile, post);
      var q := p.queue + [r];
      CodesSnoc(p.queue, r);
      forall i, j | 0 <= i < j < |q| ensures q[i].metadata.postId != q[j].metadata.postId {
        if j == |p.queue| {
          assert q[i] == p.queue[i];
          assert q[i].metadata.postId in Codes(p.queue);
        } else {
          assert q[i] == p.queue[i] && q[j] == p.queue[j];
        }
      }
      forall i | 0 <= i < |q| ensures q[i].metadata.postId !in shared0 + chunk0 {
        if i < |p.queue| {
          assert q[i] == p.queue[i];
        }
      }
    }
  }

  /** A pass keeps the progress sound; in particular `posts_fetched` never falls behind
      `current_post_index - start_idx`, so the loop's skipping branch is never taken. */
  lemma {:induction false} ScanSound(p: Progress, profile: string, start: int, end: int,
                                     shared0: set<string>, chunk0: set<string>, posts: seq<RawPost>)
    requires Sound(p, start, end, shared0, chunk0)
    ensures Sound(Scan(p, profile, start, end, posts), start, end, shared0, chunk0)
    decreases |posts|
  {
    if posts != [] && p.current < end {
      TakeSound(p, profile, start, end, shared0, chunk0, posts[0]);
      ScanSound(Take(p, profile, posts[0]), profile, start, end, shared0, chunk0, posts[1..]);
    }
  }

  /** The loop keeps the progress sound and never counts more than `max_retries` failures. */
  lemma {:induction false} RunSound(st: State, profile: string, start: int, end: int,
                                    shared0: set<string>, chunk0: set<string>, ps: seq<Pass>)
    requires Sound(st.progress, start, end, shared0, chunk0) && st.retries <= MaxRetries
    ensures var r := Run(st, profile, start, end, ps);
      Sound(r.progress, start, end, shared0, chunk0) && r.retries <= MaxRetries
    decreases |ps|
  {
    if Continues(st, end) && ps != [] {
      ScanSound(st.progress, profile, start, end, shared0, chunk0, ps[0].posts);
      RunSound(AfterPass(st, profile, start, end, ps[0]), profile, start, end, shared0, chunk0, ps[1..]);
    }
  }

  /** What a chunk leaves behind, whatever the network does: at most four failures; no record
      queued twice and none whose shortcode either set held beforehand; both sets extended by
      exactly the queued shortcodes; and `posts_fetched`, the number of queued records, at most
      the chunk's size. */
  lemma {:induction false} ChunkGuarantees(profile: string, start: int, end: int,
                                           shared: set<string>, chunk: set<string>, ps: seq<Pass>)
    ensures var r := Run(Start(start, shared, chunk), profile, start, end, ps);
      var q := r.progress.queue;
      && r.retries <= MaxRetries
      && NoRepeats(q)
      && (forall i :: 0 <= i < |q| ==> q[i].metadata.postId !in shared && q[i].metadata.postId !in chunk)
      && r.progress.shared == shared + Codes(q) && r.progress.chunk == chunk + Codes(q)
      && r.progress.fetched == |q|
      && (q == [] || |q| <= end - start)
  {
    assert Codes([]) == {};
    RunSound(Start(start, shared, chunk), profile, start, end, shared, chunk, ps);
  }

  // ---------------------------------------------------------------- a pass that runs out

  /** A pass that runs out without raising and yields no post the chunk may take leaves
      everything but the pass count as it was, so the loop goes on to fetch the profile
      again. */
  lemma {:induction false} IdlePassRepeats(st: State, profile: string, start: int, end: int,
                                           shared0: set<string>, chunk0: set<string>, pass: Pass)
    requires Sound(st.progress, start, end, shared0, chunk0) && Continues(st, end)
    requires !pass.raised
    requires forall j :: 0 <= j < |pass.posts| ==> pass.posts[j].shortcode in st.progress.shared
    ensures AfterPass(st, profile, start, end, pass) == st.(passes := st.passes + 1)
    ensures Continues(AfterPass(st, profile, start, end, pass), end)
  {
    IdleScan(st.progress, profile, start, end, shared0, chunk0, pass.posts);
  }

  lemma {:induction false} IdleScan(p: Progress, profile: string, start: int, end: int,
                                    shared0: set<string>, chunk0: set<string>, posts: seq<RawPost>)
    requires Sound(p, start, end, shared0, chunk0) && p.current < end
    requires forall j :: 0 <= j < |posts| ==> posts[j].shortcode in p.shared
    ensures Scan(p, profile, start, end, posts) == p
    decreases |posts|
  {
    if posts != [] {
      assert posts[0].shortcode in p.shared;
      IdleScan(p, profile, start, end, shared0, chunk0, posts[1..]);
    }
  }

  /** `n` copies of a pass. */
  function Repeat(pass: Pass, n: nat): (ps: seq<Pass>)
    ensures |ps| == n && forall k :: 0 <= k < n ==> ps[k] == pass
  {
    if n == 0 then [] else [pass] + Repeat(pass, n - 1)
  }

  /** As written, the loop does not end when the profile has no more posts for the chunk: each
      further fetch of the profile makes no progress and is followed by another, for as many
      fetches as the network allows. */
  lemma {:induction false} IdlePassesNeverEnd(st: State, profile: string, start: int, end: int,
                                              shared0: set<string>, chunk0: set<string>, pass: Pass, n: nat)
    requires Sound(st.progress, start, end, shared0, chunk0) && Continues(st, end)
    requires !pass.raised
    requires forall j :: 0 <= j < |pass.posts| ==> pass.posts[j].shortcode in st.progress.shared
    ensures Run(st, profile, start, end, Repeat(pass, n)) == st.(passes := st.passes + n)
    decreases n
  {
    if n > 0 {
      IdlePassRepeats(st, profile, start, end, shared0, chunk0, pass);
      assert Repeat(pass, n)[1..] == Repeat(pass, n - 1);
      IdlePassesNeverEnd(st.(passes := st.passes + 1), profile, start, end, shared0, chunk0, pass, n - 1);
    }
  }

  /** A chunk of two posts of a profile that has one: the first fetch queues it, and every later
      fetch finds nothing new, so `n + 1` fetches that never fail leave the loop still going. */
  lemma {:induction false} OnePostProfileSpins(post: RawPost, n: nat)
    ensures var r := Run(Start(0, {}, {}), "u", 0, 2, Repeat(Pass([post], false), n + 1));
      r.passes == n + 1 && |r.progress.queue| == 1 && Continues(r, 2)
  {
    var pass := Pass([post], false);
    var st := Start(0, {}, {});
    assert Codes([]) == {};
    var p1 := Take(st.progress, "u", post);
    assert Scan(st.progress, "u", 0, 2, [post]) == p1 by {
      assert [post][1..] == [];
    }
    var st1 := AfterPass(st, "u", 0, 2, pass);
    assert st1 == State(p1, 0, 1);
    TakeSound(st.progress, "u", 0, 2, {}, {}, post);
    assert Repeat(pass, n + 1)[1..] == Repeat(pass, n);
    IdlePassesNeverEnd(st1, "u", 0, 2, {}, {}, pass, n);
  }

  // ---------------------------------------------------------------- the loop, corrected

  /** The loop as evidently intended: a pass that runs out without raising means the profile
      has no more posts, and the loop ends. */
  function RunStopping(st: State, profile: string, start: int, end: int, ps: seq<Pass>): (r: State)
    ensures Extends(st.progress, r.progress)
    ensures st.retries <= r.retries && st.passes <= r.passes <= st.passes + |ps|
    ensures Continues(r, end) && r.passes < st.passes + |ps| ==>
      r.passes > st.passes && !ps[r.passes - st.passes - 1].raised
    decreases |ps|
  {
    if !Continues(st, end) || ps == [] then st
    else
      var next := AfterPass(st, profile, start, end, ps[0]);
      if !ps[0].raised then next else
        var r := RunStopping(next, profile, start, end, ps[1..]);
        ExtendsTrans(st.progress, next.progress, r.progress);
        assert r.passes > st.passes;
        assert Continues(r, end) && r.passes < st.passes + |ps| ==>
          ps[r.passes - st.passes - 1] == ps[1..][r.passes - next.passes - 1];
        r
  }

  /** The corrected loop fetches the profile at most five times: at most four failing passes
      and one that runs out; and it keeps the same guarantees as the loop as written. */
  lemma {:induction false} StoppingFetchesBounded(st: State, profile: string, start: int, end: int,
                                                  shared0: set<string>, chunk0: set<string>, ps: seq<Pass>)
    requires Sound(st.progress, start, end, shared0, chunk0) && st.retries <= MaxRetries
    ensures var r := RunStopping(st, profile, start, end, ps);
      r.passes <= st.passes + (MaxRetries - st.retries) + 1 &&
      Sound(r.progress, start, end, shared0, chunk0) && r.retries <= MaxRetries
    decreases |ps|
  {
    if Continues(st, end) && ps != [] {
      ScanSound(st.progress, profile, start, end, shared0, chunk0, ps[0].posts);
      if ps[0].raised {
        StoppingFetchesBounded(AfterPass(st, profile, start, end, ps[0]), profile, start, end, shared0, chunk0, ps[1..]);
      }
    }
  }
}
