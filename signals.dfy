/**
 * The 4FAT signal: four aggregates over a symbol's chronologically ordered
 * bars (a 200-bar and a 20-bar moving average of the close, the highest of
 * the last 6 closes, and the last close), and the largest of the four as the
 * breakout threshold. An empty series yields the `10 ** 10` sentinel.
 */
module Signals {
  import opened Bars

  /** The `10 ** 10` each analysis returns for an empty series. */
  const SENTINEL: real := 10000000000.0

  function Min(a: int, b: int): int
  {
    if a <= b then a else b
  }

  function Closes(bars: seq<Bar>): (cs: seq<real>)
    ensures |cs| == |bars| && forall i :: 0 <= i < |bars| ==> cs[i] == bars[i].close
  {
    seq(|bars|, i requires 0 <= i < |bars| => bars[i].close)
  }

  /**
   * Python's `xs[-n:]` for `n > 0`: the last `n` items, or all of them when
   * there are fewer. At `n = 0` this gives `[]` where Python gives the whole
   * list; the analyses only use windows of 200, 20 and 6.
   */
  function LastItems(xs: seq<real>, n: nat): seq<real>
  {
    xs[|xs| - Min(n, |xs|)..]
  }

  /** The last `n` closes are the closes of the last `n` bars. */
  lemma LastClosesOfLastBars(bars: seq<Bar>, n: nat)
    ensures LastItems(Closes(bars), n) == Closes(bars[|bars| - Min(n, |bars|)..])
  {
    var lo := |bars| - Min(n, |bars|);
    var w := LastItems(Closes(bars), n);
    forall i | 0 <= i < |w| ensures w[i] == bars[lo..][i].close {
      assert w[i] == Closes(bars)[lo + i];
    }
  }

  function Sum(xs: seq<real>): real
  {
    if xs == [] then 0.0 else xs[0] + Sum(xs[1..])
  }

  function Mean(xs: seq<real>): real
    requires xs != []
  {
    Sum(xs) / (|xs| as real)
  }

  /** Python's `max(xs)`. */
  function MaxOf(xs: seq<real>): real
    requires xs != []
  {
    if |xs| == 1 then xs[0]
    else
      var m := MaxOf(xs[1..]);
      if xs[0] >= m then xs[0] else m
  }

  /** The maximum is one of the items and no item exceeds it. */
  lemma {:induction false} MaxOfIsMaximum(xs: seq<real>)
    requires xs != []
    ensures MaxOf(xs) in xs && forall x :: x in xs ==> x <= MaxOf(xs)
  {
    if |xs| > 1 {
      MaxOfIsMaximum(xs[1..]);
      assert xs == [xs[0]] + xs[1..];
    }
  }

  /** Python's `min(xs)`. */
  function MinOf(xs: seq<real>): real
    requires xs != []
  {
    if |xs| == 1 then xs[0]
    else
      var m := MinOf(xs[1..]);
      if xs[0] <= m then xs[0] else m
  }

  /** The minimum is one of the items and no item is below it. */
  lemma {:induction false} MinOfIsMinimum(xs: seq<real>)
    requires xs != []
    ensures MinOf(xs) in xs && forall x :: x in xs ==> MinOf(xs) <= x
  {
    if |xs| > 1 {
      MinOfIsMinimum(xs[1..]);
      assert xs == [xs[0]] + xs[1..];
    }
  }

  /** A sum of items between `lo` and `hi` lies between `|xs| * lo` and `|xs| * hi`. */
  lemma {:induction false} SumBetween(xs: seq<real>, lo: real, hi: real)
    requires forall x :: x in xs ==> lo <= x <= hi
    ensures (|xs| as real) * lo <= Sum(xs) <= (|xs| as real) * hi
  {
    if xs != [] {
      assert xs[0] in xs;
      assert forall x :: x in xs[1..] ==> x in xs;
      SumBetween(xs[1..], lo, hi);
      assert (|xs| as real) * lo == ((|xs| - 1) as real) * lo + lo;
      assert (|xs| as real) * hi == ((|xs| - 1) as real) * hi + hi;
    }
  }

  lemma DivWithin(s: real, n: real, lo: real, hi: real)
    requires n > 0.0 && n * lo <= s <= n * hi
    ensures lo <= s / n <= hi
  {
  }

  /** A mean lies between the smallest and the largest item. */
  lemma MeanBetween(xs: seq<real>)
    requires xs != []
    ensures MinOf(xs) <= Mean(xs) <= MaxOf(xs)
  {
    MinOfIsMinimum(xs);
    MaxOfIsMaximum(xs);
    SumBetween(xs, MinOf(xs), MaxOf(xs));
    DivWithin(Sum(xs), |xs| as real, MinOf(xs), MaxOf(xs));
  }

  /** The mean close of the last `window` bars (of all of them when there are fewer). */
  function MovingAverage(bars: seq<Bar>, window: nat): real
    requires window > 0
  {
    if bars == [] then SENTINEL else Mean(LastItems(Closes(bars), window))
  }

  /**
   * With no bars the average is the sentinel; otherwise it averages the last
   * `window` closes (all of them when there are fewer) and so lies between
   * the lowest and the highest of them.
   */
  lemma MovingAverageSpec(bars: seq<Bar>, window: nat)
    requires window > 0
    ensures bars == [] ==> MovingAverage(bars, window) == SENTINEL
    ensures bars != [] ==>
      var w := LastItems(Closes(bars), window);
      && |w| == Min(window, |bars|)
      && MovingAverage(bars, window) == Sum(w) / (|w| as real)
      && MinOf(w) <= MovingAverage(bars, window) <= MaxOf(w)
  {
    if bars != [] {
      MeanBetween(LastItems(Closes(bars), window));
    }
  }

  /** analyze_for_200_avg */
  function AnalyzeFor200Avg(bars: seq<Bar>): real
  {
    MovingAverage(bars, 200)
  }

  /** analyze_for_20_avg */
  function AnalyzeFor20Avg(bars: seq<Bar>): real
  {
    MovingAverage(bars, 20)
  }

  /** The maximum of a window of closes is the close of one of the window's bars. */
  lemma MaxOfWindow(bars: seq<Bar>, n: nat)
    requires bars != [] && n > 0
    ensures var lo := |bars| - Min(n, |bars|);
      var m := MaxOf(LastItems(Closes(bars), n));
      (forall i :: lo <= i < |bars| ==> bars[i].close <= m) &&
      exists i :: lo <= i < |bars| && bars[i].close == m
  {
    var lo := |bars| - Min(n, |bars|);
    var w := LastItems(Closes(bars), n);
    var m := MaxOf(w);
    MaxOfIsMaximum(w);
    forall i | lo <= i < |bars| ensures bars[i].close <= m {
      assert w[i - lo] == bars[i].close;
      assert w[i - lo] in w;
    }
    var k :| 0 <= k < |w| && w[k] == m;
    assert bars[k + lo].close == m;
  }

  /** analyze_for_6_max_value: the highest of the last 6 closes. */
  function AnalyzeFor6MaxValue(bars: seq<Bar>): real
  {
    if bars == [] then SENTINEL else MaxOf(LastItems(Closes(bars), 6))
  }

  /** The sentinel for no bars; otherwise the close of one of the last 6 bars, and no lower than any of them. */
  lemma SixMaxSpec(bars: seq<Bar>)
    ensures bars == [] ==> AnalyzeFor6MaxValue(bars) == SENTINEL
    ensures forall i :: |bars| - Min(6, |bars|) <= i < |bars| ==> bars[i].close <= AnalyzeFor6MaxValue(bars)
    ensures bars != [] ==>
      exists i :: |bars| - Min(6, |bars|) <= i < |bars| && bars[i].close == AnalyzeFor6MaxValue(bars)
  {
    if bars != [] {
      MaxOfWindow(bars, 6);
    }
  }

  /** analyze_for_closing_price: the close of the last bar. */
  function AnalyzeForClosingPrice(bars: seq<Bar>): real
  {
    if bars == [] then SENTINEL else bars[|bars| - 1].close
  }

  /** The highest recent close is never below the last close. */
  lemma SixMaxAtLeastClosing(bars: seq<Bar>)
    ensures AnalyzeFor6MaxValue(bars) >= AnalyzeForClosingPrice(bars)
  {
    SixMaxSpec(bars);
  }

  /** The `collected_4fat` dict: {'200avg', '20avg', '6max', 'closing'}. */
  datatype FourFat = FourFat(avg200: real, avg20: real, max6: real, closing: real)

  function CollectFourFat(bars: seq<Bar>): FourFat
  {
    FourFat(AnalyzeFor200Avg(bars), AnalyzeFor20Avg(bars), AnalyzeFor6MaxValue(bars), AnalyzeForClosingPrice(bars))
  }

  function Max(a: real, b: real): real
  {
    if a >= b then a else b
  }

  /** `max(collected_4fat.values())`: an upper bound of the four values that is one of them. */
  function MaxValueOf4fat(f: FourFat): real
  {
    Max(Max(Max(f.avg200, f.avg20), f.max6), f.closing)
  }

  lemma MaxValueOf4fatSpec(f: FourFat)
    ensures var r := MaxValueOf4fat(f);
      && r >= f.avg200 && r >= f.avg20 && r >= f.max6 && r >= f.closing
      && (r == f.avg200 || r == f.avg20 || r == f.max6 || r == f.closing)
  {
  }

  /** With no bars, all four values and the threshold are the sentinel. */
  lemma EmptySeriesIsSentinel()
    ensures CollectFourFat([]) == FourFat(SENTINEL, SENTINEL, SENTINEL, SENTINEL)
    ensures MaxValueOf4fat(CollectFourFat([])) == SENTINEL
  {
  }

  /** A shorter window of the last items lies inside a longer one. */
  lemma WindowsNest(xs: seq<real>, a: nat, b: nat)
    requires a <= b
    ensures forall x :: x in LastItems(xs, a) ==> x in LastItems(xs, b)
  {
    var wa, wb := LastItems(xs, a), LastItems(xs, b);
    assert wa == wb[|wb| - |wa|..];
  }

  /**
   * For a non-empty series the threshold is a real price level: it lies
   * between the last close and the highest close of the last 200 bars.
   */
  lemma ThresholdWithinRecentCloses(bars: seq<Bar>)
    requires bars != []
    ensures AnalyzeForClosingPrice(bars) <= MaxValueOf4fat(CollectFourFat(bars)) <= MaxOf(LastItems(Closes(bars), 200))
  {
    var cs := Closes(bars);
    var w200, w20, w6 := LastItems(cs, 200), LastItems(cs, 20), LastItems(cs, 6);
    var top := MaxOf(w200);
    MovingAverageSpec(bars, 200);
    MovingAverageSpec(bars, 20);
    MaxValueOf4fatSpec(CollectFourFat(bars));
    MaxOfIsMaximum(w200);
    MaxOfIsMaximum(w20);
    MaxOfIsMaximum(w6);
    MinOfIsMinimum(w200);
    MinOfIsMinimum(w20);
    WindowsNest(cs, 20, 200);
    WindowsNest(cs, 6, 200);
    assert MaxOf(w20) in w20;
    assert MaxOf(w6) in w6;
    assert AnalyzeFor6MaxValue(bars) == MaxOf(w6);
    assert cs[|cs| - 1] == w200[|w200| - 1];
    assert AnalyzeForClosingPrice(bars) in w200;
  }
}
