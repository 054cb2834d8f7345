/** The ingestion side of the back end, without the network: the normalisation of a post's
    caption into hashtags and a cleaned caption, the classification of a post into a record,
    and the partitioning of profiles, loaders and post indices among worker threads. */
module Ingest {
  import opened Wrappers
  import opened Text

  // ---------------------------------------------------------------- hashtags

  predicate IsHash(c: char) { c == '#' }

  /** A word that `extract_hashtags` turns into a tag. */
  predicate StartsWithHash(w: string) { |w| > 0 && w[0] == '#' }

  /** The characters a tag can hold: `[a-z0-9]`. */
  predicate IsTagChar(c: char) { ('a' <= c <= 'z') || IsAsciiDigit(c) }

  /** A string made of tag characters only. */
  predicate IsTagText(t: string) { forall i :: 0 <= i < |t| ==> IsTagChar(t[i]) }

  /** The tag of one word: '#' stripped from both of its ends, whitespace stripped, lower-cased,
      and every character that is not an ASCII letter or digit removed. */
  function Tag(w: string): (t: string)
    ensures IsTagText(t)
  {
    var l := Unhashed(w);
    KeepPreserves(l, IsAsciiAlnum, NotUpper);
    Keep(l, IsAsciiAlnum)
  }

  predicate NotUpper(c: char) { !('A' <= c <= 'Z') }

  /** A word with '#' and whitespace stripped from its ends, lower-cased. */
  function Unhashed(w: string): (l: string)
    ensures forall i :: 0 <= i < |l| ==> NotUpper(l[i])
  {
    LowerNotUpper(PyStrip(Trim(w, IsHash)));
    Lower(PyStrip(Trim(w, IsHash)))
  }

  lemma {:induction false} LowerNotUpper(s: string)
    ensures forall i :: 0 <= i < |Lower(s)| ==> NotUpper(Lower(s)[i])
  {
    if s != [] {
      LowerNotUpper(s[1..]);
      var h := LowerChar(s[0]);
      assert forall i :: 0 <= i < |h| ==> NotUpper(h[i]);
      assert Lower(s) == h + Lower(s[1..]);
    }
  }

  /** The tags of the '#'-words of a list of words, in order. */
  function Hashtags(ws: seq<string>): (tags: seq<string>)
    ensures |tags| <= |ws|
    ensures forall k :: 0 <= k < |tags| ==> IsTagText(tags[k])
  {
    if ws == [] then []
    else (if StartsWithHash(ws[0]) then [Tag(ws[0])] else []) + Hashtags(ws[1..])
  }

  /** `extract_hashtags`: nothing for a missing or empty caption, else one tag per
      whitespace-separated word of the caption that starts with '#'. */
  function ExtractHashtags(caption: Option<string>): (tags: seq<string>)
    ensures caption.None? || caption == Some("") ==> tags == []
    ensures forall k :: 0 <= k < |tags| ==> IsTagText(tags[k])
  {
    match caption
    case None => []
    case Some(c) => if c == "" then [] else Hashtags(Words(c))
  }

  /** The words of a list that start with '#', in order: an independent account of which words
      yield a tag. */
  function HashWords(ws: seq<string>): (hs: seq<string>)
    ensures forall k :: 0 <= k < |hs| ==> StartsWithHash(hs[k]) && hs[k] in ws
  {
    if ws == [] then []
    else if StartsWithHash(ws[0]) then [ws[0]] + HashWords(ws[1..])
    else HashWords(ws[1..])
  }

  /** Exactly one tag per '#'-word, in the words' order, empty tags included. */
  lemma {:induction false} OneTagPerHashWord(ws: seq<string>)
    ensures |Hashtags(ws)| == |HashWords(ws)|
    ensures forall k :: 0 <= k < |Hashtags(ws)| ==> Hashtags(ws)[k] == Tag(HashWords(ws)[k])
  {
    if ws != [] {
      OneTagPerHashWord(ws[1..]);
      var tags, rest := Hashtags(ws), Hashtags(ws[1..]);
      var hs, hrest := HashWords(ws), HashWords(ws[1..]);
      if StartsWithHash(ws[0]) {
        assert tags == [Tag(ws[0])] + rest && hs == [ws[0]] + hrest;
        forall k | 0 < k < |tags| ensures tags[k] == Tag(hs[k]) {
          assert tags[k] == rest[k - 1] && hs[k] == hrest[k - 1];
        }
      } else {
        assert tags == rest && hs == hrest;
      }
    }
  }

  /** A character that contributes to a tag: an ASCII letter or digit, or one of the two
      characters whose lower-case form holds an ASCII letter. */
  predicate YieldsTagChar(c: char) { IsAsciiAlnum(c) || LowersToAscii(c) }

  /** A caption that is a single '#'-word with no character that lower-cases to an ASCII letter
      or digit ("#", "#!", "##" ...) still yields a tag: the empty one. */
  lemma {:induction false} BareHashKept(w: string)
    requires IsWord(w) && StartsWithHash(w)
    requires forall i :: 0 <= i < |w| ==> !YieldsTagChar(w[i])
    ensures ExtractHashtags(Some(w)) == [""]
  {
    assert ExtractHashtags(Some(w)) == Hashtags([w]) by {
      WordsOfWord(w);
    }
    assert Hashtags([w]) == [Tag(w)] by {
      OneHashWord(w);
    }
    assert Tag(w) == "" by {
      NoAlnumNoTag(w);
    }
  }

  lemma {:induction false} NoAlnumNoTag(w: string)
    requires forall i :: 0 <= i < |w| ==> !YieldsTagChar(w[i])
    ensures Tag(w) == ""
  {
    TagIsFilteredWord(w);
    var l := Lower(w);
    LowerOnAscii(w);
    forall i | 0 <= i < |l| ensures !IsAsciiAlnum(l[i]) {
      assert l[i] == AsciiLower(w[i]);
    }
    KeepNone(l, IsAsciiAlnum);
  }

  /** Python lower-cases U+0130 to "i" followed by a combining dot, so a tag that starts with
      it keeps an "i" there: "#\U{130}stanbul" gives "istanbul". */
  lemma {:induction false} DottedCapitalITag(r: string)
    requires IsTagText(r)
    ensures Tag("#" + "\U{130}" + r) == "i" + r
  {
    var h := "#" + "\U{130}";
    TagIsFilteredWord(h + r);
    assert Lower(h + r) == "#i\U{307}" + r by {
      LowerAppend(h, r);
      DottedPrefixLower();
      LowerOfTagText(r);
    }
    assert Keep("#i\U{307}" + r, IsAsciiAlnum) == "i" + r by {
      KeepAppend("#i\U{307}", r, IsAsciiAlnum);
      DottedPrefixKeep();
      TagTextIsAlnum(r);
      KeepAll(r, IsAsciiAlnum);
    }
  }

  lemma {:induction false} DottedPrefixLower()
    ensures Lower("#" + "\U{130}") == "#i\U{307}"
  {
    LowerAppend("#", "\U{130}");
    assert Lower("#") == "#";
    assert Lower("\U{130}") == "i\U{307}";
  }

  lemma {:induction false} DottedPrefixKeep()
    ensures Keep("#i\U{307}", IsAsciiAlnum) == "i"
  {
    KeepAppend("#", "i\U{307}", IsAsciiAlnum);
    assert Keep("#", IsAsciiAlnum) == "";
    assert Keep("i\U{307}", IsAsciiAlnum) == "i";
  }

  /** The Kelvin sign lower-cases to "k": "#\U{212a}" gives the tag "k". */
  lemma {:induction false} KelvinSignTag()
    ensures Tag("#\U{212a}") == "k"
  {
    TagIsFilteredWord("#\U{212a}");
    KelvinLower();
    KelvinKeep();
  }

  lemma {:induction false} KelvinLower()
    ensures Lower("#\U{212a}") == "#k"
  {
    assert Lower("#\U{212a}") == LowerChar('#') + Lower("\U{212a}");
    assert Lower("\U{212a}") == LowerChar('\U{212a}') + Lower("");
  }

  lemma {:induction false} KelvinKeep()
    ensures Keep("#k", IsAsciiAlnum) == "k"
  {
    assert Keep("#k", IsAsciiAlnum) == Keep("k", IsAsciiAlnum);
  }

  lemma {:induction false} LowerOfTagText(r: string)
    requires IsTagText(r)
    ensures Lower(r) == r
  {
    LowerOnAscii(r);
  }

  lemma {:induction false} TagTextIsAlnum(r: string)
    requires IsTagText(r)
    ensures forall i :: 0 <= i < |r| ==> IsAsciiAlnum(r[i])
  {
  }

  lemma {:induction false} OneHashWord(w: string)
    requires StartsWithHash(w)
    ensures Hashtags([w]) == [Tag(w)]
  {
    assert [w][1..] == [];
  }

  /** A caption that is a single word splits into that word. */
  lemma {:induction false} WordsOfWord(w: string)
    requires IsWord(w)
    ensures Words(w) == [w]
  {
    assert TrimLeft(w, IsPySpace) == w;
    TakeWholeWord(w);
    assert w[|w|..] == [];
    assert TrimLeft([], IsPySpace) == [];
  }

  lemma {:induction false} TakeWholeWord(w: string)
    requires forall i :: 0 <= i < |w| ==> !IsPySpace(w[i])
    ensures TakeWord(w) == w
  {
    if w != [] {
      TakeWholeWord(w[1..]);
    }
  }

  lemma {:induction false} LowerAppend(a: string, b: string)
    ensures Lower(a + b) == Lower(a) + Lower(b)
  {
    if a == [] {
      assert a + b == b;
    } else {
      assert (a + b)[0] == a[0];
      assert (a + b)[1..] == a[1..] + b;
      LowerAppend(a[1..], b);
      AppendAssoc(LowerChar(a[0]), Lower(a[1..]), Lower(b));
    }
  }

  /** Removing, at both ends, characters that the final filter drops anyway changes nothing. */
  lemma {:induction false} TrimBeforeFilter(s: string, p: char -> bool)
    requires forall c :: p(c) ==> !YieldsTagChar(c)
    ensures Keep(Lower(Trim(s, p)), IsAsciiAlnum) == Keep(Lower(s), IsAsciiAlnum)
  {
    var lead, last := TrimSplits(s, p);
    FilterIgnoresEnds(lead, Trim(s, p), last, p);
  }

  lemma {:induction false} FilterIgnoresEnds(lead: string, r: string, last: string, p: char -> bool)
    requires forall c :: p(c) ==> !YieldsTagChar(c)
    requires forall j :: 0 <= j < |lead| ==> p(lead[j])
    requires forall j :: 0 <= j < |last| ==> p(last[j])
    ensures Keep(Lower(lead + r + last), IsAsciiAlnum) == Keep(Lower(r), IsAsciiAlnum)
  {
    LowerAppend(lead + r, last);
    LowerAppend(lead, r);
    KeepAppend(Lower(lead) + Lower(r), Lower(last), IsAsciiAlnum);
    KeepAppend(Lower(lead), Lower(r), IsAsciiAlnum);
    FilterDropsLowered(lead, p);
    FilterDropsLowered(last, p);
  }

  lemma {:induction false} FilterDropsLowered(s: string, p: char -> bool)
    requires forall c :: p(c) ==> !YieldsTagChar(c)
    requires forall j :: 0 <= j < |s| ==> p(s[j])
    ensures Keep(Lower(s), IsAsciiAlnum) == []
  {
    var l := Lower(s);
    LowerOnAscii(s);
    forall i | 0 <= i < |l| ensures !IsAsciiAlnum(l[i]) {
      assert l[i] == AsciiLower(s[i]);
    }
    KeepNone(l, IsAsciiAlnum);
  }

  /** The two strips in a tag are redundant: a tag is the word lower-cased with everything but
      ASCII letters and digits removed. */
  lemma {:induction false} TagIsFilteredWord(w: string)
    ensures Tag(w) == Keep(Lower(w), IsAsciiAlnum)
  {
    var unhashed := Trim(w, IsHash);
    assert Tag(w) == Keep(Lower(PyStrip(unhashed)), IsAsciiAlnum);
    StripBeforeFilter(unhashed);
    UnhashBeforeFilter(w);
  }

  lemma {:induction false} StripBeforeFilter(s: string)
    ensures Keep(Lower(PyStrip(s)), IsAsciiAlnum) == Keep(Lower(s), IsAsciiAlnum)
  {
    SpaceIsNotAlnum();
    TrimBeforeFilter(s, IsPySpace);
  }

  lemma {:induction false} UnhashBeforeFilter(s: string)
    ensures Keep(Lower(Trim(s, IsHash)), IsAsciiAlnum) == Keep(Lower(s), IsAsciiAlnum)
  {
    TrimBeforeFilter(s, IsHash);
  }

  lemma {:induction false} SpaceIsNotAlnum()
    ensures forall c :: IsPySpace(c) ==> !YieldsTagChar(c)
  {
  }

  // ---------------------------------------------------------------- captions

  /** The regex class `[a-zA-Z0-9\s]`. */
  predicate IsCaptionChar(c: char) { IsAsciiAlnum(c) || IsPySpace(c) }

  /** `clean_caption`: "" for a missing or empty caption, else the caption with every character
      that is not an ASCII letter, digit or whitespace removed. */
  function CleanCaption(caption: Option<string>): (r: string)
    ensures caption.None? || caption == Some("") ==> r == ""
    ensures caption.Some? ==> forall c :: c in r ==> c in caption.value
    ensures forall i :: 0 <= i < |r| ==> IsCaptionChar(r[i])
  {
    match caption
    case None => ""
    case Some(c) => if c == "" then "" else Keep(c, IsCaptionChar)
  }

  /** Cleaning a cleaned caption changes nothing. */
  lemma {:induction false} CleanCaptionIdempotent(caption: Option<string>)
    ensures CleanCaption(Some(CleanCaption(caption))) == CleanCaption(caption)
  {
    var r := CleanCaption(caption);
    if r != "" {
      KeepAll(r, IsCaptionChar);
    }
  }

  /** Cleaning works character by character in order: the cleaned halves of a caption make up
      the cleaned caption. */
  lemma {:induction false} CleanCaptionKeepsOrder(a: string, b: string)
    ensures CleanCaption(Some(a + b)) == CleanCaption(Some(a)) + CleanCaption(Some(b))
  {
    KeepAppend(a, b, IsCaptionChar);
    if a == "" {
      assert a + b == b;
    }
    if b == "" {
      assert a + b == a;
    }
  }

  /** A caption made only of ASCII letters, digits and whitespace is left as it is. */
  lemma {:induction false} CleanCaptionKeepsAllowed(c: string)
    requires forall i :: 0 <= i < |c| ==> IsCaptionChar(c[i])
    ensures CleanCaption(Some(c)) == c
  {
    if c != "" {
      KeepAll(c, IsCaptionChar);
    }
  }

  // ---------------------------------------------------------------- post records

  /** The fields of an instaloader post that the record is built from; the date is given
      already formatted, `location` is absent when the post has none, and `musicTitle` is
      absent when the post has no such attribute and `Some(None)` when the attribute is `None`. */
  datatype RawPost = RawPost(
    shortcode: string, typename: string, isVideo: bool, likes: int, comments: int,
    videoViewCount: Option<int>, date: string, caption: Option<string>,
    location: Option<string>, musicTitle: Option<Option<string>>, sidecarUrls: seq<string>, url: string)

  /** The metadata of a stored post; `views` and `music` are `None` where Python stores `None`. */
  datatype Metadata = Metadata(
    likes: int, comments: int, views: Option<int>, timestamp: string, hashtags: seq<string>,
    location: string, music: Option<string>, postId: string, postType: string, urls: seq<string>,
    caption: string, username: string)

  datatype PostRecord = PostRecord(username: string, content: string, metadata: Metadata)

  /** A post's type, from its type name and whether it is a video. */
  function PostType(typename: string, isVideo: bool): (t: string)
    ensures t == "Carousel" <==> typename == "GraphSidecar"
    ensures t == "Reel" <==> typename != "GraphSidecar" && isVideo
    ensures t == "Image" <==> typename != "GraphSidecar" && !isVideo
  {
    if typename == "GraphSidecar" then "Carousel" else if isVideo then "Reel" else "Image"
  }

  /** A post's views: the video view count for a video, 0 for anything else. */
  function Views(isVideo: bool, videoViewCount: Option<int>): (v: Option<int>)
    ensures !isVideo ==> v == Some(0)
    ensures isVideo ==> v == videoViewCount
  {
    if isVideo then videoViewCount else Some(0)
  }

  /** The record written for one post of a profile. */
  function PostInfo(profile: string, p: RawPost): (r: PostRecord)
    ensures r.username == profile && r.metadata.username == profile && r.content == ""
    ensures r.metadata.postId == p.shortcode
    ensures r.metadata.postType == PostType(p.typename, p.isVideo)
    ensures r.metadata.views == Views(p.isVideo, p.videoViewCount)
    ensures r.metadata.views == if p.isVideo then p.videoViewCount else Some(0)
    ensures r.metadata.urls == if p.typename == "GraphSidecar" then p.sidecarUrls else [p.url]
    ensures r.metadata.hashtags == ExtractHashtags(p.caption)
    ensures r.metadata.caption == CleanCaption(p.caption)
    ensures r.metadata.location == p.location.GetOr("") && r.metadata.music == p.musicTitle.GetOr(Some(""))
    ensures r.metadata.likes == p.likes && r.metadata.comments == p.comments
    ensures r.metadata.timestamp == p.date
  {
    var t := PostType(p.typename, p.isVideo);
    var urls := if t == "Carousel" then p.sidecarUrls else [p.url];
    PostRecord(profile, "", Metadata(
      p.likes, p.comments, Views(p.isVideo, p.videoViewCount), p.date,
      ExtractHashtags(p.caption), p.location.GetOr(""), p.musicTitle.GetOr(Some("")),
      p.shortcode, t, urls, CleanCaption(p.caption), profile))
  }

  // ---------------------------------------------------------------- partitioning

  /** `s[i::n]`: the elements of `s` at positions `i`, `i + n`, `i + 2n`, ... */
  function Stride<T>(s: seq<T>, i: nat, n: nat): (r: seq<T>)
    requires n >= 1
    decreases |s| - i
  {
    if i >= |s| then [] else [s[i]] + Stride(s, i + n, n)
  }

  /** Element `k` of `s[i::n]` is `s[i + k * n]`, and every such position of `s` has one. */
  lemma {:induction false} StrideAt<T>(s: seq<T>, i: nat, n: nat)
    requires n >= 1
    ensures forall k :: 0 <= k < |Stride(s, i, n)| ==> i + k * n < |s| && Stride(s, i, n)[k] == s[i + k * n]
    ensures forall k: nat :: i + k * n < |s| ==> k < |Stride(s, i, n)|
    decreases |s| - i
  {
    if i < |s| {
      StrideAt(s, i + n, n);
      var r, rest := Stride(s, i, n), Stride(s, i + n, n);
      assert r == [s[i]] + rest;
      forall k | 0 < k < |r| ensures i + k * n < |s| && r[k] == s[i + k * n] {
        MulSucc(k - 1, n);
        assert r[k] == rest[k - 1];
      }
      forall k: nat | i + k * n < |s| ensures k < |r| {
        if k > 0 {
          MulSucc(k - 1, n);
        }
      }
    }
  }

  lemma {:induction false} MulSucc(i: int, n: int)
    ensures (i + 1) * n == i * n + n
  {
  }

  /** `profile_batches`: one batch per worker, dealt round-robin. */
  function ProfileBatches<T>(profiles: seq<T>, numWorkers: nat): (batches: seq<seq<T>>)
    requires numWorkers >= 1
    ensures |batches| == numWorkers
    ensures forall i :: 0 <= i < numWorkers ==> batches[i] == Stride(profiles, i, numWorkers)
  {
    seq(numWorkers, i requires 0 <= i < numWorkers => Stride(profiles, i, numWorkers))
  }

  lemma {:induction false} DivModUnique(j: int, n: int, i: int, k: int)
    requires n >= 1 && 0 <= i < n && k >= 0 && j == i + k * n
    ensures i == j % n && k == j / n
  {
    var q, r := j / n, j % n;
    assert (k - q) * n == r - i by {
      assert j == q * n + r;
      Distribute(k, q, n);
    }
    if k - q >= 1 {
      MulMono(1, k - q, n);
    } else if q - k >= 1 {
      MulMono(1, q - k, n);
      Distribute(q, k, n);
    }
  }

  lemma {:induction false} Distribute(a: int, b: int, n: int)
    ensures (a - b) * n == a * n - b * n
  {
  }

  /** The position in the profile list of slot `k` of batch `i`. */
  function Position(i: int, k: int, n: int): int { i + k * n }

  /** Batch `i` holds, in order, exactly the profiles whose positions are `i` modulo the
      number of workers. */
  lemma {:induction false} BatchesRoundRobin<T>(profiles: seq<T>, numWorkers: nat, i: nat)
    requires numWorkers >= 1 && i < numWorkers
    ensures var b := ProfileBatches(profiles, numWorkers)[i];
      (forall k :: 0 <= k < |b| ==>
        Position(i, k, numWorkers) < |profiles| && b[k] == profiles[Position(i, k, numWorkers)] &&
        Position(i, k, numWorkers) % numWorkers == i) &&
      forall j :: 0 <= j < |profiles| && j % numWorkers == i ==>
        j / numWorkers < |b| && b[j / numWorkers] == profiles[j]
  {
    BatchSlots(profiles, numWorkers, i);
    BatchResidues(profiles, numWorkers, i);
  }

  lemma {:induction false} BatchSlots<T>(profiles: seq<T>, n: nat, i: nat)
    requires 1 <= n && i < n
    ensures forall k :: 0 <= k < |Stride(profiles, i, n)| ==>
      Position(i, k, n) < |profiles| && Stride(profiles, i, n)[k] == profiles[Position(i, k, n)] &&
      Position(i, k, n) % n == i
  {
    StrideAt(profiles, i, n);
    forall k | 0 <= k < |Stride(profiles, i, n)| ensures Position(i, k, n) % n == i {
      DivModUnique(i + k * n, n, i, k);
    }
  }

  lemma {:induction false} BatchResidues<T>(profiles: seq<T>, n: nat, i: nat)
    requires 1 <= n && i < n
    ensures forall j :: 0 <= j < |profiles| && j % n == i ==>
      j / n < |Stride(profiles, i, n)| && Stride(profiles, i, n)[j / n] == profiles[j]
  {
    StrideAt(profiles, i, n);
    forall j | 0 <= j < |profiles| && j % n == i
      ensures j / n < |Stride(profiles, i, n)| && Stride(profiles, i, n)[j / n] == profiles[j]
    {
      assert j == i + (j / n) * n;
    }
  }

  /** Every profile is in exactly one batch: the one of its position modulo the number of
      workers, at its position divided by that number; no other batch slot holds it. */
  lemma {:induction false} EachProfileInOneBatch<T>(profiles: seq<T>, numWorkers: nat, j: nat)
    requires numWorkers >= 1 && j < |profiles|
    ensures var b := ProfileBatches(profiles, numWorkers);
      j / numWorkers < |b[j % numWorkers]| && b[j % numWorkers][j / numWorkers] == profiles[j]
    ensures forall i, k :: 0 <= i < numWorkers && 0 <= k && Position(i, k, numWorkers) == j ==>
      i == j % numWorkers && k == j / numWorkers
  {
    var n := numWorkers;
    BatchesRoundRobin(profiles, n, j % n);
    forall i, k | 0 <= i < n && 0 <= k && Position(i, k, n) == j
      ensures i == j % n && k == j / n
    {
      DivModUnique(j, n, i, k);
    }
  }

  /** `loaders_per_worker`. */
  function LoadersPerWorker(numLoaders: nat, numWorkers: nat): (l: nat)
    requires numWorkers >= 1
    ensures l >= 1
    ensures numLoaders >= numWorkers ==> l * numWorkers <= numLoaders < (l + 1) * numWorkers
    ensures numLoaders < numWorkers ==> l == 1
  {
    if numLoaders / numWorkers >= 1 then numLoaders / numWorkers else 1
  }

  function Min(a: int, b: int): int { if a <= b then a else b }

  /** The positions of the loaders handed to worker `i`:
      `loaders[i * per : (i + 1) * per]`, clamped to the list as slicing does. */
  function LoaderSlice<T>(loaders: seq<T>, i: nat, per: nat): (r: seq<T>)
    ensures |r| == Min((i + 1) * per, |loaders|) - Min(i * per, |loaders|)
    ensures forall k :: 0 <= k < |r| ==> r[k] == loaders[i * per + k]
  {
    assert i * per <= (i + 1) * per;
    loaders[Min(i * per, |loaders|)..Min((i + 1) * per, |loaders|)]
  }

  /** Workers never share a loader: the slice positions of two different workers are
      different. */
  lemma {:induction false} LoaderSlicesDisjoint<T>(loaders: seq<T>, per: nat, i: nat, j: nat, a: nat, b: nat)
    requires per >= 1 && i != j
    requires a < |LoaderSlice(loaders, i, per)| && b < |LoaderSlice(loaders, j, per)|
    ensures i * per + a != j * per + b
  {
    if i * per + a == j * per + b {
      DivModUnique(i * per + a, per, a, i);
      DivModUnique(j * per + b, per, b, j);
    }
  }

  /** With at least as many loaders as workers, the worker slices stay inside the list, so every
      worker gets `loaders_per_worker` loaders. */
  lemma {:induction false} SlicesFull<T>(loaders: seq<T>, numWorkers: nat, i: nat)
    requires 1 <= numWorkers <= |loaders| && i < numWorkers
    ensures |LoaderSlice(loaders, i, LoadersPerWorker(|loaders|, numWorkers))| ==
      LoadersPerWorker(|loaders|, numWorkers)
  {
    var per := LoadersPerWorker(|loaders|, numWorkers);
    MulMono(i + 1, numWorkers, per);
  }

  lemma {:induction false} MulMono(a: nat, b: nat, c: nat)
    requires a <= b
    ensures a * c <= b * c
  {
  }

  /** With more workers than loaders, a worker past the last loader gets none. */
  lemma {:induction false} LateWorkersWithoutLoaders<T>(loaders: seq<T>, numWorkers: nat, i: nat)
    requires numWorkers > |loaders| && |loaders| <= i
    ensures LoaderSlice(loaders, i, LoadersPerWorker(|loaders|, numWorkers)) == []
  {
    assert LoadersPerWorker(|loaders|, numWorkers) == 1;
  }

  // ---------------------------------------------------------------- chunks

  /** `math.ceil(a / b)`, on integers. */
  function CeilDiv(a: int, b: int): (q: int)
    requires b >= 1
    ensures (q - 1) * b < a <= q * b
  {
    -((-a) / b)
  }

  /** A half-open range of post indices `[start, end)`. */
  datatype Chunk = Chunk(start: int, end: int) {
    predicate Holds(p: int) { start <= p < end }
  }

  /** The chunks of `max_posts` for `num_workers` workers. */
  function Chunks(maxPosts: int, numWorkers: nat): (cs: seq<Chunk>)
    requires numWorkers >= 1
    ensures |cs| == numWorkers
    ensures forall i :: 0 <= i < numWorkers ==>
      cs[i].start == i * CeilDiv(maxPosts, numWorkers) &&
      cs[i].end == Min((i + 1) * CeilDiv(maxPosts, numWorkers), maxPosts) &&
      cs[i].end <= maxPosts
  {
    var size := CeilDiv(maxPosts, numWorkers);
    seq(numWorkers, i requires 0 <= i < numWorkers => Chunk(i * size, Min((i + 1) * size, maxPosts)))
  }

  /** Each chunk begins where the one before it was meant to end. */
  lemma {:induction false} ChunksContiguous(maxPosts: int, numWorkers: nat, i: nat)
    requires numWorkers >= 1 && i + 1 < numWorkers
    ensures Chunks(maxPosts, numWorkers)[i + 1].start == (i + 1) * CeilDiv(maxPosts, numWorkers)
    ensures Chunks(maxPosts, numWorkers)[i].end == Min(Chunks(maxPosts, numWorkers)[i + 1].start, maxPosts)
  {
  }

  /** No post index is in two chunks. */
  lemma {:induction false} ChunksDisjoint(maxPosts: int, numWorkers: nat, i: nat, j: nat, p: int)
    requires numWorkers >= 1 && i < numWorkers && j < numWorkers
    requires Chunks(maxPosts, numWorkers)[i].Holds(p) && Chunks(maxPosts, numWorkers)[j].Holds(p)
    ensures i == j
  {
    var size := CeilDiv(maxPosts, numWorkers);
    if i < j {
      MulMono(i + 1, j, size);
    } else if j < i {
      MulMono(j + 1, i, size);
    }
  }

  /** Every post index in `[0, max_posts)` is in some chunk, and the chunks hold no other. */
  lemma {:induction false} ChunksCover(maxPosts: int, numWorkers: nat, p: int)
    requires numWorkers >= 1
    ensures (0 <= p < maxPosts) <==>
      exists i :: 0 <= i < numWorkers && Chunks(maxPosts, numWorkers)[i].Holds(p)
  {
    var cs := Chunks(maxPosts, numWorkers);
    var size := CeilDiv(maxPosts, numWorkers);
    if 0 <= p < maxPosts {
      var i := ChunkOf(p, size, numWorkers, maxPosts);
      assert cs[i].Holds(p);
    }
    if exists i :: 0 <= i < numWorkers && cs[i].Holds(p) {
      var i :| 0 <= i < numWorkers && cs[i].Holds(p);
      MulSucc(i, size);
      if size >= 0 {
        MulMono(0, i, size);
      }
    }
  }

  /** The chunk that holds post index `p`. */
  lemma {:induction false} ChunkOf(p: int, size: int, numWorkers: nat, maxPosts: int) returns (i: nat)
    requires 0 <= p < maxPosts <= size * numWorkers
    ensures i < numWorkers && i * size <= p < (i + 1) * size
  {
    assert size >= 1;
    i := p / size;
    assert size * i + p % size == p;
    MulSucc(i, size);
    if i >= numWorkers {
      MulMono(numWorkers, i, size);
    }
  }

  /** Trailing chunks can be empty: five posts over four workers leave the last chunk with its
      start past its end. */
  lemma {:induction false} TrailingChunkEmpty()
    ensures Chunks(5, 4) == [Chunk(0, 2), Chunk(2, 4), Chunk(4, 5), Chunk(6, 5)]
  {
    assert CeilDiv(5, 4) == 2;
  }
}
