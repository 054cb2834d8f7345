/**
 * The chart carousel of the Next.js dashboard: an index that cycles through a
 * line, a bar and a pie chart of fixed sample data.
 */
module ChartCarousel {
  import opened Wrappers

  /** The number of charts in the carousel. */
  const ChartCount := 3

  /** `(prev + 1) % 3`. */
  function Next(i: int): (r: int)
    requires 0 <= i < ChartCount
    ensures 0 <= r < ChartCount
    ensures r == if i == ChartCount - 1 then 0 else i + 1
  {
    (i + 1) % ChartCount
  }

  /** `(prev - 1 + 3) % 3`. */
  function Prev(i: int): (r: int)
    requires 0 <= i < ChartCount
    ensures 0 <= r < ChartCount
    ensures r == if i == 0 then ChartCount - 1 else i - 1
  {
    (i - 1 + ChartCount) % ChartCount
  }

  /** "prev" undoes "next". */
  lemma {:induction false} PrevUndoesNext(i: int)
    requires 0 <= i < ChartCount
    ensures Prev(Next(i)) == i
  {
  }

  /** "next" undoes "prev". */
  lemma {:induction false} NextUndoesPrev(i: int)
    requires 0 <= i < ChartCount
    ensures Next(Prev(i)) == i
  {
  }

  /** `n` presses of "next". */
  function NextTimes(i: int, n: nat): (r: int)
    requires 0 <= i < ChartCount
    ensures 0 <= r < ChartCount
  {
    if n == 0 then i else Next(NextTimes(i, n - 1))
  }

  lemma {:induction false} ModOfSplit(x: int, q: int, r: int)
    requires x == ChartCount * q + r && 0 <= r < ChartCount
    ensures x % ChartCount == r
  {
  }

  /** Pressing "next" `n` times lands on `(i + n) % 3`. */
  lemma {:induction false} NextTimesCycles(i: int, n: nat)
    requires 0 <= i < ChartCount
    ensures NextTimes(i, n) == (i + n) % ChartCount
  {
    if n == 0 {
      ModOfSplit(i, 0, i);
    } else {
      NextTimesCycles(i, n - 1);
      var x := i + n - 1;
      var q, r := x / ChartCount, x % ChartCount;
      assert x == ChartCount * q + r;
      if r < ChartCount - 1 {
        ModOfSplit(x + 1, q, r + 1);
      } else {
        ModOfSplit(x + 1, q + 1, 0);
      }
    }
  }

  /** Three presses of "next" come back to the starting chart. */
  lemma {:induction false} ThreeNextsReturn(i: int)
    requires 0 <= i < ChartCount
    ensures NextTimes(i, 3) == i
  {
    NextTimesCycles(i, 3);
    ModOfSplit(i + 3, 1, i);
  }

  /** The component's state: the index of the chart on show. */
  class Carousel {
    var currentChart: int

    predicate Valid()
      reads this
    {
      0 <= currentChart < ChartCount
    }

    /** The carousel opens on the first chart. */
    constructor()
      ensures currentChart == 0 && Valid()
    {
      currentChart := 0;
    }

    /** `handleNextChart`. */
    method HandleNextChart()
      requires Valid()
      modifies this
      ensures Valid() && currentChart == Next(old(currentChart))
    {
      currentChart := (currentChart + 1) % ChartCount;
    }

    /** `handlePrevChart`. */
    method HandlePrevChart()
      requires Valid()
      modifies this
      ensures Valid() && currentChart == Prev(old(currentChart))
    {
      currentChart := (currentChart - 1 + ChartCount) % ChartCount;
    }
  }

  datatype Chart = Line | Bar | Pie

  /** `renderChart`: the chart for an index; no chart for any other value. */
  function RenderChart(i: int): (r: Option<Chart>)
    ensures r.Some? <==> 0 <= i < ChartCount
    ensures r == Some(Line) <==> i == 0
    ensures r == Some(Bar) <==> i == 1
    ensures r == Some(Pie) <==> i == 2
  {
    if i == 0 then Some(Line) else if i == 1 then Some(Bar) else if i == 2 then Some(Pie) else None
  }

  /** Every index the carousel can hold shows a chart, and distinct indices show distinct charts. */
  lemma {:induction false} EveryIndexRenders(i: int, j: int)
    requires 0 <= i < ChartCount && 0 <= j < ChartCount
    ensures RenderChart(i).Some?
    ensures i != j ==> RenderChart(i) != RenderChart(j)
  {
  }

  /** A data series of a chart. */
  datatype Dataset = Dataset(name: string, data: seq<int>)

  const LineLabels: seq<string> := ["Jan", "Feb", "Mar", "Apr", "May", "Jun"]

  const LineDatasets: seq<Dataset> := [
    Dataset("Carousel", [1200, 1900, 1600, 2500, 2200, 2800]),
    Dataset("Photo", [500, 800, 600, 1000, 900, 1200]),
    Dataset("Reels", [1500, 200, 700, 1100, 1900, 200]),
    Dataset("Videos", [1300, 2200, 1800, 2300, 2100, 2700]),
    Dataset("Stories", [700, 1000, 900, 1400, 1100, 1500])
  ]

  const BarLabels: seq<string> := ["Jan", "Feb", "Mar", "Apr", "May", "Jun"]

  const BarDatasets: seq<Dataset> := [Dataset("Carousel Views", [1200, 1900, 1600, 2500, 2200, 2800])]

  const PieLabels: seq<string> := ["Carousel", "Photo", "Reels"]

  const PieDatasets: seq<Dataset> := [Dataset("", [1200, 800, 1500])]

  /** A chart whose every series has one point per label. */
  predicate Aligned(labels: seq<string>, datasets: seq<Dataset>) {
    forall k :: 0 <= k < |datasets| ==> |datasets[k].data| == |labels|
  }

  /** Each chart's series have exactly as many points as the chart has labels: six for the line and bar charts. */
  lemma {:induction false} SampleDataAligned()
    ensures |LineLabels| == 6 && Aligned(LineLabels, LineDatasets)
    ensures Aligned(BarLabels, BarDatasets) && Aligned(PieLabels, PieDatasets)
  {
  }
}
