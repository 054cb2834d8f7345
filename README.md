# Destiny Supermind: a verified model of the dashboard and its back end

Destiny Supermind is an Instagram analytics tool. Its Python back end gets a profile's posts and normalises them. It stores them, renders them as CSV for a language model, and asks a Langflow flow (or Gemini, as a fallback) for insights. Its React dashboard groups the posts into day, week or month periods. It computes per-type metrics, finds the top post and the best posting hour, and lets the user switch profiles and chat.

This Dafny project models that logic and proves what the code promises about it. There is one module per source file, plus shared helpers:

| module | file | models |
|---|---|---|
| `Wrappers` | wrappers.dfy | `Option` and `Result` |
| `Values` | values.dfy | JSON values; JavaScript and Python truthiness |
| `Text` | text.dfy | Python and JavaScript string builtins: `split()`, `split(sep)`, `join`, `strip`, `trim`, `lower`, `replace`, `re.sub` with a character class, `includes` |
| `Grouping` | grouping.dfy | grouping by key in first-seen order, weighted sums over sequences, the partition lemmas |
| `PerformanceOverview` | performance_overview.dfy | the date range, the filter, the grouping `reduce`, the per-period averages and the sort of `PerformanceOverview.jsx` |
| `ContentMetrics` | content_metrics.dfy | the per-content-type `reduce` across periods and the type rows |
| `Overview` | overview.dfy | the whole `processedData` computation, the axis interval and the empty-data guard |
| `TopPost` | top_post.dfy | `TopPostAndEngagement.jsx`: week numbers, safe views, weekly engagement, top post, hourly histogram, best hour |
| `Ingest` | ingest.dfy | hashtag extraction, caption cleaning, the post record, profile batches, loader slices and post chunks of the two fetchers |
| `ChunkFetch` | chunk_fetch.dfy | `LoaderPair` and the retry loop of `fetch_posts_chunk` |
| `BackendMain` | backend_main.dfy | `format_data_as_csv`, `init_environment`, the `get_data` fallback and re-keying, the Gemini prompt |
| `Langflow` | langflow.dfy | `LangflowClient`: settings and their validation, run URL, payload, headers, tweaks, response parsing, `getInsightsFromLangflow` |
| `Navbar` | navbar.dfy | the user switch, its error classification, the Enter key and the AI-chat toggle |
| `AIChat` | ai_chat.dfy | the chat's message list |
| `UserContext` | user_context.dfy | the user provider and `useUserContext` |
| `ChartCarousel` | chart_carousel.dfy | the chart carousel of the Next.js dashboard |

How the model is built:

- **Stateful components are classes.** React components whose state the handlers change become classes: `Navbar.NavbarState`, `AIChat.Chat`, `UserContext.UserProvider`, `ChartCarousel.Carousel`. So does `ChunkFetch.LoaderPair`. Their methods state the whole new state.
- **Loops are methods proved against specification functions.** The `reduce`/`forEach` loops and the Python `for` loops are methods, each proved equal to a function. The properties are then proved about those functions. This applies to:
  - `PerformanceOverview.Accumulate` and `ContentMetrics.AggregateContentTypes`;
  - `TopPost.HourlyHistogram`;
  - `BackendMain.FormatDataAsCsv` and `BackendMain.RekeyDocs`;
  - `Langflow.ValidateConfig`;
  - `ChunkFetch.FetchPostsChunk`.
- **The outside world is a parameter.** The date library is a `DateLib` or `Clock` value of functions. The environment is a map. The `Instagram` stream is a sequence of passes. The store, the HTTP post and the uuid source are parameters.

## Model

Rows marked "(helper)" are general facts the other proofs use; the cited lines are where the code relies on them.

| member | source | states |
|---|---|---|
| Text.Lower | backend/insta_fetch.py:68 | `str.lower()` never shortens a string, because each character lowers to at least one |
| Text.LowerChar | backend/insta_fetch.py:68 | one character lowered: U+0130 becomes "i" and a combining dot, U+212A becomes "k", every other character its ASCII lower case |
| Text.LowerOnAscii | backend/insta_fetch.py:68 | without those two characters, lowering keeps the length and lowers each character in place |
| Text.AsciiLower | backend/insta_fetch.py:68 | capitals map to small letters, all else is unchanged, and being a letter or digit is preserved |
| Text.Keep | backend/insta_fetch.py:68 | `re.sub` with a negated class keeps only characters of the class, all taken from the input and never more of them |
| Text.KeepAppend | backend/insta_fetch.py:68 | the filter works character by character: it distributes over concatenation |
| Text.KeepAll | backend/insta_fetch.py:73 | a string made only of allowed characters is left unchanged |
| Text.KeepNone | backend/insta_fetch.py:68 | a string with no allowed character is removed entirely |
| Text.TrimLeft | backend/insta_fetch.py:68 | the result is a suffix; every character removed satisfies the predicate; the first one kept does not |
| Text.TrimRight | backend/insta_fetch.py:68 | the result is a prefix; every character removed satisfies the predicate; the last one kept does not |
| Text.Trim | backend/insta_fetch.py:68 | `strip(chars)`: a non-empty result starts and ends with a character outside the set |
| Text.TrimSplits | backend/insta_fetch.py:68 | the input is a run of stripped characters, the result, and another such run, in that order |
| Text.JsTrimEmptyIffBlank | frontend/src/components/Dashboard/AIChat.jsx:11 | `trim()` returns "" exactly when every character is JavaScript whitespace |
| Text.TakeWord | backend/insta_fetch.py:69 | the longest whitespace-free prefix: it is followed by whitespace or the end |
| Text.Words | backend/insta_fetch.py:69 | `split()` yields non-empty whitespace-free words |
| Text.WordsSep | backend/insta_fetch.py:69 | splitting `a`, a whitespace character and `b` gives the words of `a` followed by the words of `b` |
| Text.WordsSepBlank | backend/insta_fetch.py:69 | the same when `a` is all whitespace |
| Text.WordsSepWord | backend/insta_fetch.py:69 | the same when `a` starts with a word |
| Text.WordsUnfold | backend/insta_fetch.py:69 | a string starting with a non-space splits into its leading word and the words of the rest |
| Text.WordsSkipSpace | backend/insta_fetch.py:69 | leading whitespace adds no word |
| Text.TrimLeftSkips | backend/insta_fetch.py:69 | (helper) a leading run of whitespace is stripped away entirely |
| Text.TakeWordStops | backend/insta_fetch.py:69 | a word already ended by whitespace is not lengthened by what follows |
| Text.WordsConcat | backend/insta_fetch.py:69 | the words put back together are the input with its whitespace removed: nothing else is lost |
| Text.SplitOn | backend/langflow_fetch.py:141 | `split(sep)` yields at least one part and no part holds the separator |
| Text.JoinSplit | backend/main.py:180 | joining the parts of a split with the separator gives the string back |
| Text.SplitJoin | backend/main.py:180 | splitting a join gives the parts back when no part holds the separator |
| Text.SplitAfterSegment | backend/langflow_fetch.py:141 | splitting `a + sep + b` gives `a` and then the parts of `b` |
| Text.ReplaceChar | backend/main.py:176 | `replace('\n', ' ')` keeps the length and changes exactly the occurrences of the character |
| Text.ContainsIffOccurs | frontend/src/components/Dashboard/Navbar.jsx:49 | `includes` holds exactly when the substring occurs at some position |
| Grouping.KeysInOrder | frontend/src/components/Dashboard/PerformanceOverview.jsx:154-205 | the keys of a keyed `reduce` in insertion order: distinct, every element's key is among them, and each comes from some element |
| Grouping.Select | frontend/src/components/Dashboard/PerformanceOverview.jsx:154-205 | the elements of one key, in order, no more than the input |
| Grouping.SelectNonEmptyIffSeen | frontend/src/components/Dashboard/PerformanceOverview.jsx:172-182 | a key has elements exactly when the `reduce` opened an entry for it |
| Grouping.PartitionSum | frontend/src/components/Dashboard/PerformanceOverview.jsx:194-202 | grouping conserves any weight: the per-key sums over the distinct keys add up to the total |
| Grouping.PartitionCount | frontend/src/components/Dashboard/PerformanceOverview.jsx:197 | grouping conserves the number of elements |
| Grouping.SumWPermutation | frontend/src/components/Dashboard/PerformanceOverview.jsx:209 | a sum does not depend on the order of its terms, so sorting keeps totals |
| Grouping.MapSeqPermutation | frontend/src/components/Dashboard/PerformanceOverview.jsx:209-215 | mapping after a permutation gives a permutation of the mapped sequence |
| Grouping.SelectCommutes | frontend/src/components/Dashboard/PerformanceOverview.jsx:184-202 | selecting by period then by type equals selecting by type then by period |
| Grouping.SumWBounds | frontend/src/components/Dashboard/PerformanceOverview.jsx:210-215 | a sum of `n` weights each in `[lo, hi]` lies in `[n*lo, n*hi]` |
| PerformanceOverview.TypeOf | frontend/src/components/Dashboard/PerformanceOverview.jsx:184 | never empty; the post's own type when set and non-empty, else "Other" |
| PerformanceOverview.Timestamps | frontend/src/components/Dashboard/PerformanceOverview.jsx:14-15 | a timestamp is listed exactly when some post has it |
| PerformanceOverview.Min | frontend/src/components/Dashboard/PerformanceOverview.jsx:16-26 | the earliest timestamp: present and no later than any other |
| PerformanceOverview.Max | frontend/src/components/Dashboard/PerformanceOverview.jsx:16-27 | the latest timestamp: present and no earlier than any other |
| PerformanceOverview.InitialDateRange | frontend/src/components/Dashboard/PerformanceOverview.jsx:12-42 | no timestamps: the twelve months up to today; otherwise from the earliest to the latest timestamp, both taken by posts, every timestamp inside |
| PerformanceOverview.FilterInRange | frontend/src/components/Dashboard/PerformanceOverview.jsx:148-151 | each post keeps its multiplicity exactly when its timestamp is inside the range, ends included, and disappears otherwise |
| PerformanceOverview.FilterSnoc | frontend/src/components/Dashboard/PerformanceOverview.jsx:148-151 | one more post is appended to the filtered posts exactly when it is in range |
| PerformanceOverview.FilterInRangeAppend | frontend/src/components/Dashboard/PerformanceOverview.jsx:148-151 | the filter keeps order: it filters each part of a concatenation on its own |
| PerformanceOverview.PeriodLabel | frontend/src/components/Dashboard/PerformanceOverview.jsx:159-170 | a day is labelled by its own date, a week by "Week of " and the date its week starts, a month by the month it starts |
| PerformanceOverview.SameStartSameLabel | frontend/src/components/Dashboard/PerformanceOverview.jsx:159-170 | timestamps of one week, or of one month, give the same label, and a week's label begins with "Week of " |
| PerformanceOverview.TotalsSnoc | frontend/src/components/Dashboard/PerformanceOverview.jsx:194-197 | one more post adds one post, its likes, its comments and its engagement |
| PerformanceOverview.TypeTotalsSnoc | frontend/src/components/Dashboard/PerformanceOverview.jsx:199-202 | one more post changes only its own type's totals |
| PerformanceOverview.DescribesSnoc | frontend/src/components/Dashboard/PerformanceOverview.jsx:184-203 | adding a post keeps a period equal to the totals, type order and per-type totals of its posts |
| PerformanceOverview.ByTypeSnoc | frontend/src/components/Dashboard/PerformanceOverview.jsx:185-202 | after adding a post every type's entry is the totals of that period's posts of that type |
| PerformanceOverview.DescribesSingle | frontend/src/components/Dashboard/PerformanceOverview.jsx:172-203 | a period opened by a post and given that post describes exactly that post |
| PerformanceOverview.PeriodOfMeaning | frontend/src/components/Dashboard/PerformanceOverview.jsx:172-203 | a period, built post by post, has the label and timestamp of its first post, the totals of its posts, its types in first-seen order and each type's totals |
| PerformanceOverview.PeriodOf | frontend/src/components/Dashboard/PerformanceOverview.jsx:172-203 | a period counts its posts, and takes its timestamp and label from the first |
| PerformanceOverview.Periods | frontend/src/components/Dashboard/PerformanceOverview.jsx:154-208 | one period per distinct key, none of them empty |
| PerformanceOverview.PeriodOfSnoc | frontend/src/components/Dashboard/PerformanceOverview.jsx:184-203 | the period of a longer selection is the period of the shorter one plus the new post |
| PerformanceOverview.GroupStep | frontend/src/components/Dashboard/PerformanceOverview.jsx:154-205 | one step of the `reduce` keeps every key's entry equal to the period of that key's posts so far |
| PerformanceOverview.GroupStepOwnKey | frontend/src/components/Dashboard/PerformanceOverview.jsx:172-203 | after a step the post's own key holds the period of its posts so far, whether it was new or existed |
| PerformanceOverview.SelectKeyStep | frontend/src/components/Dashboard/PerformanceOverview.jsx:172-203 | a new key opens a period from the post, then adds it; an existing one adds the post to its period |
| PerformanceOverview.FoldIsGrouping | frontend/src/components/Dashboard/PerformanceOverview.jsx:154-205 | the accumulator lists keys in first-seen order and holds, for each key, the period of exactly its posts |
| PerformanceOverview.Accumulate | frontend/src/components/Dashboard/PerformanceOverview.jsx:154-205 | the loop's key order and keyed accumulator are the step-by-step fold of the posts |
| PerformanceOverview.GroupByPeriod | frontend/src/components/Dashboard/PerformanceOverview.jsx:154-208 | `Object.values` of the accumulator is the periods of the posts in first-seen key order |
| PerformanceOverview.FoldPrefix | frontend/src/components/Dashboard/PerformanceOverview.jsx:154-205 | the fold over one more post is one more step |
| PerformanceOverview.FoldInOrder | frontend/src/components/Dashboard/PerformanceOverview.jsx:208 | the final accumulator, listed in its own key order, is the periods |
| PerformanceOverview.GroupsInOrder | frontend/src/components/Dashboard/PerformanceOverview.jsx:208 | every first-seen key is in the accumulator and its values in that order are the periods |
| PerformanceOverview.UpdateTwice | frontend/src/components/Dashboard/PerformanceOverview.jsx:172-203 | (helper) updating one key twice keeps only the second value |
| PerformanceOverview.PeriodsCountPosts | frontend/src/components/Dashboard/PerformanceOverview.jsx:154-206 | every grouped post is counted in exactly one period: the post counts add up to the number of posts |
| PerformanceOverview.PeriodKeys | frontend/src/components/Dashboard/PerformanceOverview.jsx:158-182 | period `i` is keyed by the `i`th first-seen key, and no two periods share an opening timestamp |
| PerformanceOverview.SameStartSameKey | frontend/src/components/Dashboard/PerformanceOverview.jsx:159-170 | timestamps of the same day, week start or month start share a key |
| PerformanceOverview.TotalsEngagement | frontend/src/components/Dashboard/PerformanceOverview.jsx:196 | engagement is always likes plus comments |
| PerformanceOverview.PeriodOfWellFormed | frontend/src/components/Dashboard/PerformanceOverview.jsx:184-203 | each type of a period is listed once, has at least one post, and has engagement = likes + comments |
| PerformanceOverview.PeriodsWellFormed | frontend/src/components/Dashboard/PerformanceOverview.jsx:154-206 | every period is well formed and holds at least one post |
| PerformanceOverview.TypeCountsSumToPosts | frontend/src/components/Dashboard/PerformanceOverview.jsx:197-199 | within a period the post counts of its types add up to its post count |
| PerformanceOverview.MissingTypeIsOther | frontend/src/components/Dashboard/PerformanceOverview.jsx:184 | a post without a type, or with an empty one, is counted under "Other" |
| PerformanceOverview.RoundDiv | frontend/src/components/Dashboard/PerformanceOverview.jsx:212-214 | `Math.round(a / b)` for a positive `b`: `q` is the integer with `b*q <= a + b/2 < b*(q+1)` |
| PerformanceOverview.RoundDivIsRound | frontend/src/components/Dashboard/PerformanceOverview.jsx:212-214 | over the reals, the result is the floor of `a/b + 1/2` |
| PerformanceOverview.CastBounds | frontend/src/components/Dashboard/PerformanceOverview.jsx:212-214 | (helper) the integer bounds of the rounding read over the reals |
| PerformanceOverview.RoundedAverageWithin | frontend/src/components/Dashboard/PerformanceOverview.jsx:212-214 | the rounded average of values in `[lo, hi]` is in `[lo, hi]` |
| PerformanceOverview.RoundDivWithin | frontend/src/components/Dashboard/PerformanceOverview.jsx:212-214 | a rounded quotient of a sum in `[n*lo, n*hi]` by `n` is in `[lo, hi]` |
| PerformanceOverview.GetTotalsOf | frontend/src/components/Dashboard/PerformanceOverview.jsx:194-197 | each figure of the totals is the sum of what each post contributes to it |
| PerformanceOverview.PeriodAverageWithin | frontend/src/components/Dashboard/PerformanceOverview.jsx:210-215 | a period's averaged likes, comments or engagement lie between the least and greatest of its posts |
| PerformanceOverview.Averaged | frontend/src/components/Dashboard/PerformanceOverview.jsx:210-215 | a period keeps its label, timestamp, post count and types; its likes, comments and engagement become the round-half-up per-post averages |
| PerformanceOverview.Insert | frontend/src/components/Dashboard/PerformanceOverview.jsx:209 | inserting into a sorted list keeps it sorted and adds exactly the new period |
| PerformanceOverview.SortedTail | frontend/src/components/Dashboard/PerformanceOverview.jsx:209 | (helper) the tail of a sorted list is sorted |
| PerformanceOverview.InsertBehind | frontend/src/components/Dashboard/PerformanceOverview.jsx:209 | inserting behind a head that is not later keeps the head in front, sorted, as a permutation |
| PerformanceOverview.SortByTime | frontend/src/components/Dashboard/PerformanceOverview.jsx:209 | `sort` by timestamp: ascending and a permutation of the periods |
| ContentMetrics.SumTotalsSnoc | frontend/src/components/Dashboard/PerformanceOverview.jsx:230-233 | one more entry adds its sums |
| ContentMetrics.MetricsStep | frontend/src/components/Dashboard/PerformanceOverview.jsx:219-234 | one more `[type, metrics]` entry keeps every type's accumulated metric equal to its metric over the entries seen |
| ContentMetrics.MetricFoldIsMetrics | frontend/src/components/Dashboard/PerformanceOverview.jsx:218-237 | the fold lists types in first-seen order and holds each type's metric |
| ContentMetrics.MetricFoldInOrder | frontend/src/components/Dashboard/PerformanceOverview.jsx:239 | the final accumulator in its type order is the metrics, one per type |
| ContentMetrics.MetricsInOrder | frontend/src/components/Dashboard/PerformanceOverview.jsx:239 | every first-seen type is in the accumulator and its values in that order are the metrics |
| ContentMetrics.MetricFoldPrefix | frontend/src/components/Dashboard/PerformanceOverview.jsx:219 | the fold over one more entry is one more step |
| ContentMetrics.EntriesPrefix | frontend/src/components/Dashboard/PerformanceOverview.jsx:218-219 | the entries of one more period are followed by that period's entries |
| ContentMetrics.AggregateContentTypes | frontend/src/components/Dashboard/PerformanceOverview.jsx:218-239 | the nested loop over periods and their entries yields, per type in first-seen order, its metric |
| ContentMetrics.AddEntries | frontend/src/components/Dashboard/PerformanceOverview.jsx:219-235 | the `forEach` over one period's entries advances the fold by exactly those entries |
| ContentMetrics.EntryAt | frontend/src/components/Dashboard/PerformanceOverview.jsx:219 | entry `j` of a period is its `j`th type with that type's sums |
| ContentMetrics.SelectEntriesOf | frontend/src/components/Dashboard/PerformanceOverview.jsx:219 | a period has at most one entry per type: its sums, if the type occurs |
| ContentMetrics.MetricSnoc | frontend/src/components/Dashboard/PerformanceOverview.jsx:220-234 | one more period adds its sums of the type, and one period if the type occurs in it |
| ContentMetrics.MetricAcross | frontend/src/components/Dashboard/PerformanceOverview.jsx:218-237 | a type's metric adds up what each period holds of it, and counts the periods it occurs in |
| ContentMetrics.GetAdd | frontend/src/components/Dashboard/PerformanceOverview.jsx:230-233 | (helper) every figure of a sum of totals is the sum of the figures |
| ContentMetrics.TypeShare | frontend/src/components/Dashboard/PerformanceOverview.jsx:184-202 | what period `k` holds of type `t` is the sum over the posts of type `t` in period `k` |
| ContentMetrics.MetricMeasure | frontend/src/components/Dashboard/PerformanceOverview.jsx:218-237 | folded across the periods, each figure of type `t` is that figure summed over the posts of type `t` |
| ContentMetrics.SharesSum | frontend/src/components/Dashboard/PerformanceOverview.jsx:154-237 | the per-period shares of a type add up to its figure over all its posts |
| ContentMetrics.MetricIsTypeTotals | frontend/src/components/Dashboard/PerformanceOverview.jsx:154-237 | the fold across periods gives each type exactly the totals of the posts of that type |
| ContentMetrics.SameMeasures | frontend/src/components/Dashboard/PerformanceOverview.jsx:221-228 | (helper) totals that agree on every figure are equal |
| ContentMetrics.MetricPeriods | frontend/src/components/Dashboard/PerformanceOverview.jsx:234 | a type's period count is the number of distinct periods its posts fall in |
| ContentMetrics.OccurrencesCount | frontend/src/components/Dashboard/PerformanceOverview.jsx:234 | the periods holding a type are as many as the distinct period keys of its posts |
| ContentMetrics.TypesAreTypesOfPosts | frontend/src/components/Dashboard/PerformanceOverview.jsx:218-239 | a type is listed exactly when some grouped post has it |
| ContentMetrics.MetricHasPeriods | frontend/src/components/Dashboard/PerformanceOverview.jsx:234 | every listed type occurs in at least one period |
| ContentMetrics.PeriodsAtMostPosts | frontend/src/components/Dashboard/PerformanceOverview.jsx:230-234 | a type has at least as many posts as periods it occurs in |
| ContentMetrics.JsRoundDiv | frontend/src/components/Dashboard/PerformanceOverview.jsx:242-245 | a finite result exactly when the divisor is non-zero, and for a positive divisor the rounded quotient |
| ContentMetrics.RoundDivAtLeast | frontend/src/components/Dashboard/PerformanceOverview.jsx:245 | a rounded quotient is at least `c` when the dividend is at least `c` times the divisor |
| ContentMetrics.SummaryDefined | frontend/src/components/Dashboard/PerformanceOverview.jsx:239-246 | for every listed type all four divisions are finite, and posts per period is at least 1.00 |
| ContentMetrics.Summarize | frontend/src/components/Dashboard/PerformanceOverview.jsx:239-246 | the row keeps the type's metric; each quotient is finite exactly when its divisor is non-zero; the average likes and comments are the rounded per-post means |
| ContentMetrics.TypeAverageWithin | frontend/src/components/Dashboard/PerformanceOverview.jsx:242-243 | a type's average likes (or comments) lies between the least and the greatest of its posts |
| Overview.ProcessData | frontend/src/components/Dashboard/PerformanceOverview.jsx:146-251 | filter, group, sort and average, and fold by type, giving the time series and the type rows as defined |
| Overview.TimeMetrics | frontend/src/components/Dashboard/PerformanceOverview.jsx:208-215 | one averaged period per distinct key of the posts in range, each with at least one post |
| Overview.SortKeepsPeriods | frontend/src/components/Dashboard/PerformanceOverview.jsx:209 | sorting keeps the number of periods and their non-empty post counts |
| Overview.ContentTypes | frontend/src/components/Dashboard/PerformanceOverview.jsx:218-246 | one row per distinct type over the periods of the posts in range |
| Overview.TimeMetricsSorted | frontend/src/components/Dashboard/PerformanceOverview.jsx:208-215 | the time series is ascending by timestamp and is a permutation of the averaged periods of the posts in range |
| Overview.TimeMetricsCountPosts | frontend/src/components/Dashboard/PerformanceOverview.jsx:148-215 | the post counts of the time series add up to the number of posts in range |
| Overview.ContentTypesRows | frontend/src/components/Dashboard/PerformanceOverview.jsx:218-246 | one row per type of the posts in range, in first-seen order, with every figure finite |
| Overview.XAxisInterval | frontend/src/components/Dashboard/PerformanceOverview.jsx:254-260 | zero exactly for at most ten points; 1 for 11 to 20 and 2 for 21 to 30; beyond, `n // 10` |
| Overview.XAxisIntervalMonotone | frontend/src/components/Dashboard/PerformanceOverview.jsx:254-260 | a longer series never gets a smaller interval |
| Overview.DivMonotone | frontend/src/components/Dashboard/PerformanceOverview.jsx:259 | (helper) integer division is monotone in the dividend |
| Overview.AtMostTenLabels | frontend/src/components/Dashboard/PerformanceOverview.jsx:254-260 | showing every `(k+1)`th label leaves at most ten labels |
| Overview.Render | frontend/src/components/Dashboard/PerformanceOverview.jsx:116-260 | "No data" exactly for a non-array or empty array; otherwise the processed data and its axis interval |
| TopPost.WeekNumber | frontend/src/components/Dashboard/TopPostAndEngagement.jsx:10-15 | `ceil(days/7)`: zero exactly on day zero, else `7(w-1) < days <= 7w` |
| TopPost.FirstWeek | frontend/src/components/Dashboard/TopPostAndEngagement.jsx:14 | days one to seven are exactly week one |
| TopPost.ValidViews | frontend/src/components/Dashboard/TopPostAndEngagement.jsx:20 | only positive view counts are kept |
| TopPost.SafeViews | frontend/src/components/Dashboard/TopPostAndEngagement.jsx:25-29 | always positive; own views when positive, else the average when positive, else 20 |
| TopPost.SumPositive | frontend/src/components/Dashboard/TopPostAndEngagement.jsx:21 | (helper) a non-empty sum of positive views is positive |
| TopPost.SomeValid | frontend/src/components/Dashboard/TopPostAndEngagement.jsx:20 | (helper) a post with positive views makes the valid views non-empty |
| TopPost.FallbackOnlyWithoutViews | frontend/src/components/Dashboard/TopPostAndEngagement.jsx:21-29 | when some post has views the fixed fallback is never used |
| TopPost.AverageViews | frontend/src/components/Dashboard/TopPostAndEngagement.jsx:20-21 | never negative, and zero exactly when no post has positive views |
| TopPost.Rate | frontend/src/components/Dashboard/TopPostAndEngagement.jsx:33-34 | an engagement rate is never negative |
| TopPost.WeeklyCounts | frontend/src/components/Dashboard/TopPostAndEngagement.jsx:31-44 | the fold counts exactly the posts of this week and last week, sums their rates, and counts no post twice |
| TopPost.WeeklyEngagement | frontend/src/components/Dashboard/TopPostAndEngagement.jsx:31-44 | the two weeks together count no more posts than there are, with non-negative rate sums that are zero for a week without posts |
| TopPost.WeekRate | frontend/src/components/Dashboard/TopPostAndEngagement.jsx:46-47 | a week's rate is a number exactly when the week has posts |
| TopPost.EngagementUp | frontend/src/components/Dashboard/TopPostAndEngagement.jsx:46-49 | up exactly when both weeks have posts and this week's mean rate is the greater |
| TopPost.TopPostIndex | frontend/src/components/Dashboard/TopPostAndEngagement.jsx:51-52 | the first post with the most likes |
| TopPost.Hours | frontend/src/components/Dashboard/TopPostAndEngagement.jsx:54-55 | the 24 distinct hours 0 to 23 |
| TopPost.HourlyHistogram | frontend/src/components/Dashboard/TopPostAndEngagement.jsx:54-78 | two new 24-bin arrays holding, per hour, the number of posts and the sum of their likes |
| TopPost.HourStep | frontend/src/components/Dashboard/TopPostAndEngagement.jsx:74-78 | one more post moves only its own hour's bins, by one post and its likes |
| TopPost.BinsCoverPosts | frontend/src/components/Dashboard/TopPostAndEngagement.jsx:74-78 | the bins add up to the number of posts and to their total likes |
| TopPost.BestHour | frontend/src/components/Dashboard/TopPostAndEngagement.jsx:86 | `indexOf(max)`: the first index holding the greatest value |
| TopPost.Compute | frontend/src/components/Dashboard/TopPostAndEngagement.jsx:7-86 | no data exactly for no posts; otherwise the top post, the weekly fold, whether engagement is up, the histogram and the best hour |
| Ingest.Tag | backend/insta_fetch.py:68 | a tag holds only `[a-z0-9]`, even for non-ASCII letters that `lower()` maps into that range |
| Ingest.DottedCapitalITag | backend/insta_fetch.py:68 | a dotted capital I (U+0130) before a tag text lowers to "i" and a combining dot, and the filter keeps the "i" |
| Ingest.KelvinSignTag | backend/insta_fetch.py:68 | "#" and the Kelvin sign (U+212A) give the tag "k" |
| Ingest.LowerOfTagText | backend/insta_fetch.py:68 | lowering leaves `[a-z0-9]` text unchanged |
| Ingest.TagTextIsAlnum | backend/insta_fetch.py:68 | `[a-z0-9]` text passes the filter |
| Ingest.FilterDropsLowered | backend/insta_fetch.py:68 | characters that neither are ASCII letters or digits nor lower to one leave nothing after lowering and filtering |
| Ingest.Unhashed | backend/insta_fetch.py:68 | after stripping and `lower()`, no capital letter is left |
| Ingest.LowerNotUpper | backend/insta_fetch.py:68 | a lower-cased string holds no capital |
| Ingest.Hashtags | backend/insta_fetch.py:67-70 | no more tags than words, each made of tag characters |
| Ingest.ExtractHashtags | backend/insta_fetch.py:64-70 | no tags for a missing or empty caption; every tag is made of tag characters |
| Ingest.HashWords | backend/insta_fetch.py:69 | the words starting with '#', all taken from the input |
| Ingest.OneTagPerHashWord | backend/insta_fetch.py:67-70 | exactly one tag per '#'-word, in order, each the tag of that word |
| Ingest.BareHashKept | backend/insta_fetch.py:67-70 | a caption that is one '#'-word with no ASCII letter or digit, nor a character lowering to one, yields one empty tag |
| Ingest.NoAlnumNoTag | backend/insta_fetch.py:68 | a word with no ASCII letter or digit, and no character lowering to one, has the empty tag |
| Ingest.OneHashWord | backend/insta_fetch.py:69 | a single '#'-word gives its own tag |
| Ingest.WordsOfWord | backend/insta_fetch.py:69 | a whitespace-free word splits into itself |
| Ingest.TakeWholeWord | backend/insta_fetch.py:69 | the leading word of a whitespace-free string is all of it |
| Ingest.LowerAppend | backend/insta_fetch.py:68 | lower-casing distributes over concatenation |
| Ingest.TrimBeforeFilter | backend/insta_fetch.py:68 | stripping characters the filter drops anyway changes nothing |
| Ingest.FilterIgnoresEnds | backend/insta_fetch.py:68 | characters the filter drops at both ends do not change the result |
| Ingest.TagIsFilteredWord | backend/insta_fetch.py:68 | both strips are redundant: a tag is the lower-cased word with every non-`[a-z0-9]` removed |
| Ingest.StripBeforeFilter | backend/insta_fetch.py:68 | `strip()` before the filter changes nothing |
| Ingest.UnhashBeforeFilter | backend/insta_fetch.py:68 | `strip('#')` before the filter changes nothing |
| Ingest.SpaceIsNotAlnum | backend/insta_fetch.py:68 | (helper) no whitespace is an ASCII letter or digit |
| Ingest.CleanCaption | backend/insta_fetch.py:72-73 | "" for a missing or empty caption; otherwise only letters, digits and whitespace from the caption |
| Ingest.CleanCaptionIdempotent | backend/insta_fetch.py:72-73 | cleaning twice is cleaning once |
| Ingest.CleanCaptionKeepsOrder | backend/insta_fetch.py:72-73 | cleaning distributes over concatenation, so order is kept |
| Ingest.CleanCaptionKeepsAllowed | backend/insta_fetch.py:72-73 | a caption of letters, digits and whitespace only is unchanged |
| Ingest.PostType | backend/insta_fetch.py:132 | "Carousel" exactly for a sidecar, "Reel" exactly for another video, "Image" otherwise |
| Ingest.PostInfo | backend/insta_indiv_fetch.py:105-125 | each field of the record: user, likes, comments, timestamp, shortcode, type, views (the video view count for a video, 0 for anything else), urls, tags, cleaned caption, the location or "", and the music title (possibly `None`) or "" when the post has none |
| Ingest.StrideAt | backend/insta_fetch.py:185 | element `k` of `s[i::n]` is `s[i + k*n]`, and every such position has one |
| Ingest.ProfileBatches | backend/insta_fetch.py:185 | one batch per worker; batch `i` is `profiles[i::n]` |
| Ingest.BatchesRoundRobin | backend/insta_fetch.py:185 | batch `i` holds exactly the profiles whose position is `i` modulo the number of workers, in order |
| Ingest.BatchSlots | backend/insta_fetch.py:185 | every slot of batch `i` is at a position congruent to `i` |
| Ingest.BatchResidues | backend/insta_fetch.py:185 | every position congruent to `i` has a slot in batch `i` |
| Ingest.EachProfileInOneBatch | backend/insta_fetch.py:185 | every profile is in exactly one batch, at exactly one slot |
| Ingest.DivModUnique | backend/insta_fetch.py:185 | (helper) the quotient and remainder of a position are unique |
| Ingest.LoadersPerWorker | backend/insta_fetch.py:184 | `max(1, loaders // workers)`: the floor of the quotient when there are enough loaders, else 1 |
| Ingest.LoaderSlice | backend/insta_fetch.py:191 | the slice `[i*per, (i+1)*per)` clipped to the list |
| Ingest.LoaderSlicesDisjoint | backend/insta_fetch.py:184-191 | two workers never share a loader |
| Ingest.SlicesFull | backend/insta_fetch.py:184-191 | with at least as many loaders as workers every worker gets a full share |
| Ingest.LateWorkersWithoutLoaders | backend/insta_fetch.py:184-191 | with more workers than loaders a worker past the last loader gets none |
| Ingest.CeilDiv | backend/insta_indiv_fetch.py:169 | `ceil(a/b)`: `(q-1)*b < a <= q*b` |
| Ingest.Chunks | backend/insta_indiv_fetch.py:169-171 | one chunk per worker, chunk `i` is `[i*size, min((i+1)*size, max_posts))` |
| Ingest.ChunksContiguous | backend/insta_indiv_fetch.py:169-171 | each chunk starts where the one before it was meant to end |
| Ingest.ChunksDisjoint | backend/insta_indiv_fetch.py:169-171 | no post index is in two chunks |
| Ingest.ChunksCover | backend/insta_indiv_fetch.py:169-171 | an index is in some chunk exactly when it is in `[0, max_posts)` |
| Ingest.ChunkOf | backend/insta_indiv_fetch.py:169-171 | the chunk that holds index `p` |
| Ingest.TrailingChunkEmpty | backend/insta_indiv_fetch.py:169-171 | five posts over four workers leave the last chunk empty and starting past the end |
| ChunkFetch.Switched | backend/insta_indiv_fetch.py:73-75 | `(i + 1) % 2`: the other loader |
| ChunkFetch.SwitchStep | backend/insta_indiv_fetch.py:73-75 | one more switch is one more step |
| ChunkFetch.SwitchTwiceRestores | backend/insta_indiv_fetch.py:73-75 | switching twice returns to the same loader |
| ChunkFetch.SwitchedTimesParity | backend/insta_indiv_fetch.py:73-75 | an even number of switches keeps the loader, an odd number swaps it |
| ChunkFetch.LoaderPair.constructor | backend/insta_indiv_fetch.py:64-68 | the pair of loaders and the starting index |
| ChunkFetch.LoaderPair.CurrentLoader | backend/insta_indiv_fetch.py:70-71 | always one of the two loaders: the primary exactly when the index is 0 |
| ChunkFetch.LoaderPair.SwitchLoader | backend/insta_indiv_fetch.py:73-75 | the index moves to the other loader, which is returned; afterwards the index is 0 or 1, and from 0 or 1 it is the other one |
| ChunkFetch.LoaderPair.SwitchTwice | backend/insta_indiv_fetch.py:73-75 | two switches in a row give back the loader and the index in use before |
| ChunkFetch.ExtendsTrans | backend/insta_indiv_fetch.py:88-131 | (helper) extending the progress is transitive |
| ChunkFetch.Take | backend/insta_indiv_fetch.py:102-131 | a post already seen changes nothing; any other is queued last; the progress only extends |
| ChunkFetch.Scan | backend/insta_indiv_fetch.py:93-131 | a pass only extends the progress and never takes the index past the chunk's end |
| ChunkFetch.Run | backend/insta_indiv_fetch.py:88-150 | the loop only extends the progress, counts no more failures than passes, and stops early only when the chunk is full or the retries are used up |
| ChunkFetch.RunStopping | backend/insta_indiv_fetch.py:88-150 | the corrected loop only extends the progress, and stops before the passes run out only after a pass that ended without raising |
| ChunkFetch.RunUnfold | backend/insta_indiv_fetch.py:88-150 | a loop that may continue makes one pass and goes on |
| ChunkFetch.RunStops | backend/insta_indiv_fetch.py:88 | a loop that may not continue, or has no pass left, changes nothing |
| ChunkFetch.FetchPass | backend/insta_indiv_fetch.py:88-150 | one iteration: the pass's progress, and one more retry and one loader switch exactly when it raised |
| ChunkFetch.TakePost | backend/insta_indiv_fetch.py:102-131 | the body of the inner loop for a post it may take is `Take` |
| ChunkFetch.FetchPostsChunk | backend/insta_indiv_fetch.py:77-152 | the count, the two shortcode sets, the queue and the loader index are those of the `while` loop run over the passes |
| ChunkFetch.ScanPass | backend/insta_indiv_fetch.py:93-131 | the inner loop's variables are those of the pass as specified |
| ChunkFetch.RunStep | backend/insta_indiv_fetch.py:88-150 | one pass of the loop, unfolded |
| ChunkFetch.ScanStep | backend/insta_indiv_fetch.py:93-131 | one post of a pass, unfolded |
| ChunkFetch.CodesSnoc | backend/insta_indiv_fetch.py:127-128 | queuing a record adds its shortcode |
| ChunkFetch.TakeSound | backend/insta_indiv_fetch.py:101-131 | taking a post keeps the progress sound: the count, the index, the sets and the queue stay in step |
| ChunkFetch.ScanSound | backend/insta_indiv_fetch.py:93-131 | a pass keeps the progress sound |
| ChunkFetch.RunSound | backend/insta_indiv_fetch.py:88-150 | the loop keeps the progress sound and never counts more than four failures |
| ChunkFetch.ChunkGuarantees | backend/insta_indiv_fetch.py:77-152 | at most four failures; no record queued twice; no previously seen shortcode queued; the count never passes the chunk size |
| ChunkFetch.IdleScan | backend/insta_indiv_fetch.py:93-103 | a pass that yields no post the chunk may take changes nothing |
| ChunkFetch.IdlePassRepeats | backend/insta_indiv_fetch.py:88-131 | such a pass leaves the state as it was and the loop goes on |
| ChunkFetch.Repeat | backend/insta_indiv_fetch.py:88 | `n` copies of a pass |
| ChunkFetch.IdlePassesNeverEnd | backend/insta_indiv_fetch.py:88-131 | as written, any number of idle passes leaves the loop running |
| ChunkFetch.OnePostProfileSpins | backend/insta_indiv_fetch.py:88-131 | a two-post chunk of a one-post profile queues the post once and then refetches the profile forever |
| ChunkFetch.StoppingFetchesBounded | backend/insta_indiv_fetch.py:88-150 | the corrected loop fetches the profile at most five times and keeps the chunk's guarantees |
| BackendMain.Decimal | backend/main.py:171-173 | digits whose value is `n`, without a leading zero except for 0 itself |
| BackendMain.IntStr | backend/main.py:171-173 | `str(n)`: a minus sign exactly for a negative `n`, then the digits of its magnitude |
| BackendMain.IntStrInjective | backend/main.py:171-173 | distinct integers render differently |
| BackendMain.PyStr | backend/main.py:170-177 | `str` of a string is the string, of an integer its decimal text, of `None` "None", of a boolean "True" or "False", of an empty list "[]" and of an empty dict "{}"; any other list or dict prints as its `repr` |
| BackendMain.CaptionColumn | backend/main.py:176 | no newline, and a non-empty column starts and ends with non-whitespace |
| BackendMain.CaptionEnds | backend/main.py:176 | replacing newlines after stripping leaves non-whitespace ends |
| BackendMain.ReplaceCharRemoves | backend/main.py:176 | after the replacement none of the replaced character is left |
| BackendMain.ReplaceCharEnds | backend/main.py:176 | ends that are not the replaced character stay in place |
| BackendMain.ItemFields | backend/main.py:168-178 | eight columns exactly when the item can be rendered, else "Failed to format data" |
| BackendMain.FormatRow | backend/main.py:169-179 | a row exactly when the item can be rendered, else the 500 error |
| BackendMain.Traverse | backend/main.py:167-183 | all results exactly when every step succeeds, each in its place; otherwise the error of some step |
| BackendMain.TraverseStops | backend/main.py:167-183 | elements after a failure are never looked at |
| BackendMain.TraverseLastErr | backend/main.py:167-183 | a failure before the last element decides the outcome |
| BackendMain.TraverseFirstFailure | backend/main.py:181-183 | the error reported is that of the first failing element |
| BackendMain.Rows | backend/main.py:166-179 | one row per item, in order, exactly when every item renders |
| BackendMain.Csv | backend/main.py:163-183 | a CSV exactly when every item renders, else the 500 error |
| BackendMain.FormatDataAsCsv | backend/main.py:163-183 | the loop's result is the CSV as defined |
| BackendMain.CsvOfNothing | backend/main.py:166-180 | no items render as "" |
| BackendMain.CsvLinesAreRows | backend/main.py:179-180 | when no row holds a newline, the CSV's lines are exactly the rows, one per item |
| BackendMain.RowSplitsIntoColumns | backend/main.py:169-179 | when no column holds a comma, the row splits back into its eight columns |
| BackendMain.ColumnDefaults | backend/main.py:168-177 | a present key shows `str` of its value; an absent one shows "[]" for hashtags and "" otherwise |
| BackendMain.RowWithoutMetadata | backend/main.py:168-177 | an item without metadata renders as seven empty columns and "[]" |
| BackendMain.CaptionColumnHasNoNewline | backend/main.py:176 | the seventh column of a rendered row, the caption, holds no newline |
| BackendMain.Missing | backend/main.py:100 | no more names than were checked |
| BackendMain.MissingMembers | backend/main.py:100 | a name is listed exactly when it is checked and unset |
| BackendMain.MissingAppend | backend/main.py:100 | listing keeps the order of the names |
| BackendMain.MissingVars | backend/main.py:99-100 | the required names that are unset, and no others |
| BackendMain.InitEnvironment | backend/main.py:99-103 | success exactly when every required name is set; otherwise the message listing the unset ones |
| BackendMain.MissingAll | backend/main.py:100 | when every name is unset every name is listed |
| BackendMain.NothingSet | backend/main.py:99-103 | with nothing set the message names all four variables, in order |
| BackendMain.Rekey | backend/main.py:234-235 | "username" becomes "$vectorize", the id is added, every other field is kept |
| BackendMain.Rekeyed | backend/main.py:232-236 | every document re-keyed in order exactly when each is a dict with a username |
| BackendMain.RekeyedFailsAtFirstBad | backend/main.py:233-236 | the failure is that of the first bad document |
| BackendMain.RekeyDocs | backend/main.py:232-236 | the loop's result is the re-keying as defined |
| BackendMain.DataResponse | backend/main.py:201-261 | every error is a 500; a store error keeps its message; stored posts are returned as they are; on an empty store, a raising fetch is "Instagram fetch failed: " and its message, a falsy one "… No data fetched from Instagram", a non-list `notADocumentMessage`, a failed re-keying that failure's detail, and a failed write "Instagram fetch failed: " and the write's message; a success is exactly the re-keyed fetched documents, written back |
| BackendMain.FetchDetail | backend/main.py:247-249 | the fetch error's detail is "Instagram fetch failed: " followed by the raised message, "No data fetched from Instagram", the `KeyError` text "'username'" or the non-dict message |
| BackendMain.GetData | backend/main.py:195-261 | the handler's outcome is the response as defined |
| BackendMain.StoreHitIgnoresFetch | backend/main.py:205-208 | once the store has posts, neither the Instagram fetch nor the write makes a difference |
| BackendMain.GeminiPrompt | backend/main.py:289 | the two prompts, the query and the CSV joined by newlines |
| BackendMain.PromptLines | backend/main.py:289 | with single-line prompts and query, the prompt's lines are the prompts, the query and the CSV's lines |
| BackendMain.ThreeLinesFirst | backend/main.py:289 | three newline-terminated lines split off the front |
| Langflow.Or | backend/langflow_fetch.py:38-39 | `a or b`: one of the two, `a` when truthy, else `b`; truthy exactly when either is |
| Langflow.ReadSettings | backend/langflow_fetch.py:34-39 | the explicit token and endpoint win when truthy, otherwise the environment's |
| Langflow.FalsyNames | backend/langflow_fetch.py:46-53 | a name is listed exactly when its setting is falsy |
| Langflow.CheckConfig | backend/langflow_fetch.py:44-58 | valid exactly when the URL, Langflow id and flow id are truthy; otherwise the message of the falsy names |
| Langflow.ValidateConfig | backend/langflow_fetch.py:44-58 | the loop's outcome is the check as defined |
| Langflow.NewClient | backend/langflow_fetch.py:34-41 | a client exactly when the three settings are set, holding them; otherwise a configuration error |
| Langflow.ConfigErrorNames | backend/langflow_fetch.py:46-58 | the error names exactly the unset settings, in the order URL, Langflow id, flow id |
| Langflow.RunUrlSegments | backend/langflow_fetch.py:78 | the run URL is the base URL, "/", then the segments `lf`, id, `api`, `v1`, `run`, endpoint |
| Langflow.RunUrl | backend/langflow_fetch.py:78 | the run URL starts with the base URL and "/" and ends with the endpoint |
| Langflow.Payload | backend/langflow_fetch.py:80-86 | message, output and input type always; tweaks exactly when truthy; nothing else |
| Langflow.Headers | backend/langflow_fetch.py:88-91 | both headers with a token, none without |
| Langflow.FlowRequest | backend/langflow_fetch.py:78-100 | the request goes to the run URL with that payload and those headers |
| Langflow.RunFlow | backend/langflow_fetch.py:93-118 | the body exactly when the post was answered; every failure is an API error; a failed request, and a body that is not JSON, read "Failed to connect to Langflow API: " and the reason |
| Langflow.TweaksFor | backend/langflow_fetch.py:141-164 | the first text input is the stripped first '-'-segment, the second is the second segment or "" |
| Langflow.FixedTweaks | backend/langflow_fetch.py:142-164 | the six fixed components, with the Gemini model component holding exactly the model and the API key |
| Langflow.SetInputs | backend/langflow_fetch.py:144-163 | two distinct components each read back their own input |
| Langflow.PrepareTweaks | backend/langflow_fetch.py:133-170 | the tweaks exactly when the three Gemini settings are truthy, else "Missing required Gemini configuration parameters" |
| Langflow.TweakSegments | backend/langflow_fetch.py:141-162 | a message without '-' fills only the first input; for `a-b…` the inputs are stripped `a` and `b` |
| Langflow.DashSegments | backend/langflow_fetch.py:141 | the first two '-'-segments of `a-b…` |
| Langflow.Subscript | backend/langflow_fetch.py:196 | a key of a dict gives its value and a missing one the `KeyError` text "'key'"; `[0]` gives a list's first item or a string's first character, and "list index out of range", "string index out of range" or the `KeyError` "0" for an empty list, an empty string or a dict; any other value fails with the foreign `TypeError` text |
| Langflow.Lookup | backend/langflow_fetch.py:196-202 | the empty path gives the value itself; a `KeyError` or `IndexError` on the way is reported after "Error parsing flow response: "; a foreign failure keeps the `TypeError` text |
| Langflow.LookupConcat | backend/langflow_fetch.py:196 | following `p + q` is following `p`, then `q` from where `p` ends; a failure along `p` is the failure of the whole path |
| Langflow.TextPathFindsText | backend/langflow_fetch.py:196 | in a response of the flow's shape the text is found at the fixed path |
| Langflow.ExecuteFlow | backend/langflow_fetch.py:188-202 | no Gemini key means failure; a tweaks failure and a failed request are passed on as they are; an answered dict without truthy outputs is "Invalid response format: missing 'outputs' key"; with outputs, `{"response": text}` for the text at the fixed path, or that path's failure; success needs all of these |
| Langflow.ExecutedRequestHasTweaks | backend/langflow_fetch.py:85-86 | the tweaks sent are never empty, so the request always carries them |
| Langflow.InsightsMessageSplit | backend/langflow_fetch.py:221 | for a username without '-', the message `"{username} - {query}"` splits at '-' into the username with its trailing space, then the pieces of " " and the query |
| Langflow.GetInsightsFromLangflow | backend/langflow_fetch.py:219-227 | succeeds exactly when the flow does, with the flow's result; every failure is re-raised as "Error getting insights: …" |
| Langflow.InsightsMessageTweaks | backend/langflow_fetch.py:141-162 | for a dash-free username the first input is the stripped username and the second the query up to its first '-' |
| Navbar.ErrorMessage | frontend/src/components/Dashboard/Navbar.jsx:47-55 | the four messages in the handler's order of tests, and the generic one exactly when none of the three tests match |
| Navbar.CaughtMessage | frontend/src/components/Dashboard/Navbar.jsx:36-46 | the message the `catch` sees: the rejection's own, or "User not found" for falsy data, which is classified as an unknown user |
| Navbar.NotFoundHasNoBackendUrl | frontend/src/components/Dashboard/Navbar.jsx:39-49 | "User not found" does not contain "Backend URL", so it reaches its own branch |
| Navbar.MissingBackendUrlIsConfiguration | frontend/src/components/Dashboard/Navbar.jsx:49-50 | the missing-URL error of `fetchData` is shown as a configuration error |
| Navbar.NavbarState.constructor | frontend/src/components/Dashboard/Navbar.jsx:24-29 | empty id and error, nothing loading or open |
| Navbar.NavbarState.SetNewUserID | frontend/src/components/Dashboard/Navbar.jsx:126 | only the typed id changes |
| Navbar.NavbarState.BeginUserSwitch | frontend/src/components/Dashboard/Navbar.jsx:32-33 | loading starts and the error is cleared |
| Navbar.NavbarState.FinishUserSwitch | frontend/src/components/Dashboard/Navbar.jsx:35-58 | truthy data selects the user, closes the popover and clears the id; anything else shows the classified error and keeps the user; loading ends |
| Navbar.NavbarState.HandleUserSwitch | frontend/src/components/Dashboard/Navbar.jsx:31-59 | the whole switch for the id typed when it started |
| Navbar.NavbarState.HandleKeyPress | frontend/src/components/Dashboard/Navbar.jsx:61-65 | a switch runs exactly on Enter with an id and nothing loading; otherwise nothing changes |
| Navbar.NavbarState.HandleAIChatToggle | frontend/src/components/Dashboard/Navbar.jsx:67-74 | without a user: the prompt message and an open popover; with one: the chat toggles |
| AIChat.Chat.constructor | frontend/src/components/Dashboard/AIChat.jsx:5-8 | the greeting alone and an empty input |
| AIChat.Chat.SetInput | frontend/src/components/Dashboard/AIChat.jsx:51 | only the input changes |
| AIChat.Chat.SendMessage | frontend/src/components/Dashboard/AIChat.jsx:10-25 | blank input changes nothing; otherwise the untrimmed input is appended as the user's and cleared; earlier messages are kept |
| UserContext.UserProvider.constructor | frontend/src/context/UserContext.tsx:16-17 | no user and no metadata |
| UserContext.UserProvider.SetUser | frontend/src/context/UserContext.tsx:20-23 | both fields are overwritten together |
| UserContext.UseUserContext | frontend/src/context/UserContext.tsx:33-38 | the provider exactly when there is one, else the fixed error message |
| ChartCarousel.Next | frontend-next/src/components/Dashboard/PerformanceOverview.jsx:81-83 | the next index, wrapping from 2 to 0 |
| ChartCarousel.Prev | frontend-next/src/components/Dashboard/PerformanceOverview.jsx:85-87 | the previous index, wrapping from 0 to 2 |
| ChartCarousel.PrevUndoesNext | frontend-next/src/components/Dashboard/PerformanceOverview.jsx:81-87 | "prev" undoes "next" |
| ChartCarousel.NextUndoesPrev | frontend-next/src/components/Dashboard/PerformanceOverview.jsx:81-87 | "next" undoes "prev" |
| ChartCarousel.NextTimes | frontend-next/src/components/Dashboard/PerformanceOverview.jsx:81-83 | `n` presses stay a valid index |
| ChartCarousel.ModOfSplit | frontend-next/src/components/Dashboard/PerformanceOverview.jsx:82 | (helper) the remainder of `3q + r` is `r` |
| ChartCarousel.NextTimesCycles | frontend-next/src/components/Dashboard/PerformanceOverview.jsx:81-83 | `n` presses land on `(i + n) % 3` |
| ChartCarousel.ThreeNextsReturn | frontend-next/src/components/Dashboard/PerformanceOverview.jsx:81-83 | three presses come back to the start |
| ChartCarousel.Carousel.constructor | frontend-next/src/components/Dashboard/PerformanceOverview.jsx:18 | the first chart |
| ChartCarousel.Carousel.HandleNextChart | frontend-next/src/components/Dashboard/PerformanceOverview.jsx:81-83 | the index becomes the next one |
| ChartCarousel.Carousel.HandlePrevChart | frontend-next/src/components/Dashboard/PerformanceOverview.jsx:85-87 | the index becomes the previous one |
| ChartCarousel.RenderChart | frontend-next/src/components/Dashboard/PerformanceOverview.jsx:90-101 | line, bar and pie for 0, 1 and 2, nothing for any other index |
| ChartCarousel.EveryIndexRenders | frontend-next/src/components/Dashboard/PerformanceOverview.jsx:90-101 | every index the carousel can hold shows a chart, and distinct indices show distinct charts |
| ChartCarousel.SampleDataAligned | frontend-next/src/components/Dashboard/PerformanceOverview.jsx:21-78 | every series has one point per label |

## Left out

- The network, the store, the language models and the file system are parameters:
  - the store's answer to `get_astra_data` is a `Result`;
  - the contents of the JSON file of fetched posts, or the error of fetching and reading them, is a `Result`;
  - how the write back to the store ended (`get_collection` and `insert_many`) is a `Result`;
  - Langflow's HTTP post is a function from request to outcome.
  The removal of the JSON file, the client singletons, the writer threads, the thread pools and the logging are left out.
- Clocks, dates and ids are parameters:
  - the date library (`parseISO`, `format`, `startOfWeek`, `startOfMonth`, `subMonths`, `getHours`, the day of the year) is a record of functions;
  - `uuid4` is a function from position to id;
  - timestamps are integers.
- FastAPI's query-parameter validation (`min_length`, `gt`, `le`) is not modelled; it happens before the handlers run.
- `get_insights` is not modelled as a whole. Only its Gemini prompt is (`BackendMain.GeminiPrompt`), plus the Langflow side it calls (`Langflow.GetInsightsFromLangflow`). Likewise the health endpoint and `get_astra_data`/`get_collection` are not modelled: they only wrap foreign calls.
- `insta_fetch.py`'s per-profile fetch loop is not modelled. This covers `fetch_posts_for_profile`'s loader rotation and the batch writer. Its record is the same as `insta_indiv_fetch.py`'s and is modelled once (`Ingest.PostInfo`). Its batches and slices are modelled (`Ingest.ProfileBatches`, `Ingest.LoaderSlice`).
- The AI chat's timed canned reply (`setTimeout`) is not modelled: it is a timer with no logic.
- JavaScript object key order and floating point:
  - `Object.values` order is modelled as insertion order, which holds for the string keys used.
  - The `toFixed(2)` strings and the `Math.round(x * 100) / 100` rounding of the type rows are modelled in whole hundredths (`ContentMetrics.Summarize`).
  - Engagement rates are reals (`TopPost.Rate`).
- Text.Lower: of the non-ASCII characters only the two that `str.lower()` maps into `[a-z0-9]` are lowered: U+0130 (to "i" and a combining dot) and U+212A (to "k"). Every other non-ASCII character is kept as it is, because Python's Unicode case tables are not modelled. `str.lower()` would lower many of those to other non-ASCII characters, so `Text.Lower` differs from it on them. That difference disappears once the hashtag filter drops every character outside `[a-zA-Z0-9]`, because no other character lowers into that range. What `Ingest.Tag` keeps is therefore as Python keeps it (`Ingest.DottedCapitalITag`, `Ingest.KelvinSignTag`). Cleaned captions never call `lower()`.
- Ingest.NoAlnumNoTag and Ingest.BareHashKept: say nothing about words holding U+0130 or U+212A. Those characters yield a tag letter, as `Ingest.DottedCapitalITag` and `Ingest.KelvinSignTag` state.
- Text.Words and Text.Trim: whitespace is a fixed set of code points. No Unicode categories are consulted.
- PerformanceOverview.FilterInRange: requires `from <= to`. The range is built from the earliest and latest post (`InitialDateRange` proves `from <= to`). An inverted range makes the date library throw, and that exception is not modelled.
- ContentMetrics.JsRoundDiv: a zero divisor gives `None` rather than distinguishing `NaN` from `Infinity`.
- TopPost.Compute: requires hours within 0..23, as `getHours` guarantees. A `null` or missing `posts` (the `!posts` guard) is not modelled: posts are a sequence, so only the empty case exists. The week fold's `toFixed` strings are left as reals.
- TopPost.EngagementUp: compares the exact mean rates. The source compares them after rounding each to two decimals with `toFixed(2)`, so for two rates less than 0.005 apart it may say "not up" where the model says "up".
- ChunkFetch.FetchPostsChunk: a pass's `raised` flag is taken as given, even when the pass filled the chunk. In the source, a pass that fills the chunk and then receives one more post breaks out without raising (insta_indiv_fetch.py:97-99), so it neither counts as a retry nor switches the loader. The model counts the flag in both cases. The count, the shortcode sets and the queue are the same either way; only `retries` and the loader index after the chunk can differ, and the source uses neither once the loop ends.
- ChunkFetch.FetchPostsChunk: the profile's post stream and its exceptions are a finite sequence of passes. So the model cannot express the unbounded refetching itself; it is shown by `ChunkFetch.IdlePassesNeverEnd` over any number of passes.
- Langflow's `requests` exceptions are one failure value per kind: timeout, connection, and a body that is not JSON. The texts of Python's `KeyError` and `IndexError` are fixed strings: the quoted key, "list index out of range" and "string index out of range". Only the text of a `TypeError` (subscripting a value of the wrong kind) is a parameter, `typeError`. `Langflow.ExecuteFlow` also uses it for an answered body that is not a dict: there `response.get` raises an `AttributeError` (langflow_fetch.py:193), whose text ("'list' object has no attribute 'get'", …) differs from the subscript's. Both are re-raised unchanged, so only the message differs.
- Langflow.RunFlow: assumes `requests` 2.27 or later, whose `response.json()` raises `requests.exceptions.JSONDecodeError`. That class is also a `RequestException`, so the handler at backend/langflow_fetch.py:110-113 catches it, and the `json.JSONDecodeError` handler at 115-118 is never reached. The "Failed to parse API response" message is therefore not produced. Older versions of `requests` would reach it.
- Ingest.LoadersPerWorker: requires at least one worker. With zero workers `num_loaders // num_workers` raises `ZeroDivisionError`, and that exception is not modelled. The function's default is ten workers.
- BackendMain.FetchDetail and BackendMain.DataResponse: one message, `notADocumentMessage`, stands for Python's text for any fetched document that is not a dict. Python's text would vary with the document's kind (`list`, `str`, `int`, …).

## Findings

| source | as written | input that shows it | evidently intended | confidence | as-written member | corrected member |
|---|---|---|---|---|---|---|
| backend/insta_indiv_fetch.py:88-131 | the `while` loop fetches the profile again whenever a pass ends normally before the chunk is full | a chunk `[0, 2)` of a profile with one post: the post is queued, then every later pass skips it and the loop repeats until four failures stop it | a pass that runs out of posts without raising ends the chunk | not executed | ChunkFetch.OnePostProfileSpins | ChunkFetch.StoppingFetchesBounded |
