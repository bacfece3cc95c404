/**
 * The historical outcome of a bought symbol (`test_historically_for_outcome`):
 * walk the analysed day's bars after the first one and report the price the
 * bracket would have closed at.
 */
module Backtest {
  import opened Text
  import opened Bars
  import opened Symbols

  /** The bars whose date key contains `day`, in the dict's order. */
  function DayBars(es: seq<Entry>, day: string): (bs: seq<Bar>)
    ensures |bs| <= |es|
    ensures forall b :: b in bs ==> exists e :: e in es && e.bar == b && Contains(e.key, day)
    ensures forall i :: 0 <= i < |es| && Contains(es[i].key, day) ==> es[i].bar in bs
  {
    if es == [] then []
    else
      var rest := DayBars(es[1..], day);
      assert forall e :: e in es[1..] ==> e in es;
      assert forall i :: 1 <= i < |es| ==> es[i] == es[1..][i - 1];
      if Contains(es[0].key, day) then [es[0].bar] + rest else rest
  }

  /** The filter keeps the dict's order: the day's bars of two runs of items follow one another. */
  lemma {:induction false} DayBarsConcat(a: seq<Entry>, b: seq<Entry>, day: string)
    ensures DayBars(a + b, day) == DayBars(a, day) + DayBars(b, day)
  {
    if a == [] {
      assert a + b == b;
    } else {
      assert (a + b)[0] == a[0] && (a + b)[1..] == a[1..] + b;
      DayBarsConcat(a[1..], b, day);
    }
  }

  /** The bars' dates strictly increase along the sequence. */
  predicate Chronological(bs: seq<Bar>)
  {
    forall i, j :: 0 <= i < j < |bs| ==> StrLt(bs[i].date, bs[j].date)
  }

  /** A bar dated before every bar of a chronological sequence can go in front of it. */
  lemma ConsChronological(b: Bar, rest: seq<Bar>)
    requires Chronological(rest) && forall x :: x in rest ==> StrLt(b.date, x.date)
    ensures Chronological([b] + rest)
  {
    var bs := [b] + rest;
    forall i, j | 0 <= i < j < |bs| ensures StrLt(bs[i].date, bs[j].date) {
      if i == 0 {
        assert bs[j] == rest[j - 1] && bs[j] in rest;
      } else {
        assert bs[i] == rest[i - 1] && bs[j] == rest[j - 1];
      }
    }
  }

  /** In an ordered dict, the day's bars of the later items are all dated after the first item's key. */
  lemma DayBarsAfterHead(es: seq<Entry>, day: string)
    requires StrictlyAscending(es) && DatesAsKeys(es) && es != []
    ensures forall b :: b in DayBars(es[1..], day) ==> StrLt(es[0].key, b.date)
  {
    forall b | b in DayBars(es[1..], day) ensures StrLt(es[0].key, b.date) {
      var e :| e in es[1..] && e.bar == b && Contains(e.key, day);
      var k :| 0 <= k < |es[1..]| && es[1..][k] == e;
      assert KeyLt(es, 0, k + 1);
      DatesAsKeysAt(es, k + 1);
    }
  }

  /**
   * On a dict ordered by date with every bar under its own date, the day's bars
   * come in strictly increasing date order, so the `[1:]` drops the earliest.
   */
  lemma {:induction false} DayBarsChronological(es: seq<Entry>, day: string)
    requires StrictlyAscending(es) && DatesAsKeys(es)
    ensures Chronological(DayBars(es, day))
  {
    if es != [] {
      AscendingTail(es);
      DayBarsChronological(es[1..], day);
      if Contains(es[0].key, day) {
        DayBarsAfterHead(es, day);
        ConsChronological(es[0].bar, DayBars(es[1..], day));
      }
    }
  }

  /** The day's bars after its first, as the source drops the first with `[1:]`. */
  function Candidates(es: seq<Entry>, day: string): seq<Bar>
  {
    var d := DayBars(es, day);
    if d == [] then [] else d[1..]
  }

  function Min3(a: real, b: real, c: real): real
  {
    if a <= b && a <= c then a else if b <= c then b else c
  }

  function Max3(a: real, b: real, c: real): real
  {
    if a >= b && a >= c then a else if b >= c then b else c
  }

  /** `min(close, high, low)` of a bar. */
  function LowOf(b: Bar): real
  {
    Min3(b.close, b.high, b.low)
  }

  /** `max(close, high, low)` of a bar. */
  function HighOf(b: Bar): real
  {
    Max3(b.close, b.high, b.low)
  }

  /** The bar breaks neither the stop below nor the limit above. */
  predicate Holds(b: Bar, stop: real, limit: real)
  {
    LowOf(b) >= stop && HighOf(b) <= limit
  }

  /** Where the scan stops: at a bar below the stop, at a bar above the limit, or nowhere. */
  datatype Exit = StopHit(at: nat) | LimitHit(at: nat) | NoExit

  /** The first exit at or after position `i`; the stop is tested before the limit on each bar. */
  function FirstExitFrom(bars: seq<Bar>, i: nat, stop: real, limit: real): (x: Exit)
    requires i <= |bars|
    ensures x.StopHit? ==> i <= x.at < |bars| && LowOf(bars[x.at]) < stop
    ensures x.LimitHit? ==> i <= x.at < |bars| && LowOf(bars[x.at]) >= stop && HighOf(bars[x.at]) > limit
    ensures !x.NoExit? ==> forall j :: i <= j < x.at ==> Holds(bars[j], stop, limit)
    ensures x.NoExit? ==> forall j :: i <= j < |bars| ==> Holds(bars[j], stop, limit)
    decreases |bars| - i
  {
    if i == |bars| then NoExit
    else if LowOf(bars[i]) < stop then StopHit(i)
    else if HighOf(bars[i]) > limit then LimitHit(i)
    else FirstExitFrom(bars, i + 1, stop, limit)
  }

  /** The price reported for an exit: the stop, the limit, or `first_max` when neither was reached. */
  function ExitPrice(x: Exit, stop: real, limit: real, fallback: real): real
  {
    match x
    case StopHit(_) => stop
    case LimitHit(_) => limit
    case NoExit => fallback
  }

  /**
   * test_historically_for_outcome. `entries` are the symbol's stored bar
   * items, which the source reads from `app.fetched_data[symbol.name]`, and
   * `day` is the analysed day's `%Y%m%d` string, a global in the source.
   * The exit prices use the symbol's own fields (the source's `calc_*` read
   * an undefined global instead).
   */
  method TestHistoricallyForOutcome(s: SymbolState, entries: seq<Entry>, day: string) returns (r: real)
    requires s.firstClose.Some? && s.firstDiff.Some? && s.firstMax.Some?
    ensures var stop, limit := CalcStopValue(s), CalcMarketSellValue(s);
      r == ExitPrice(FirstExitFrom(Candidates(entries, day), 0, stop, limit), stop, limit, s.firstMax.value)
    ensures r == CalcStopValue(s) || r == CalcMarketSellValue(s) || r == s.firstMax.value
  {
    var minOutcome := CalcStopValue(s);
    var maxOutcome := CalcMarketSellValue(s);
    var points := DayBars(entries, day);
    points := if points == [] then [] else points[1..];
    for i := 0 to |points|
      invariant FirstExitFrom(points, 0, minOutcome, maxOutcome) == FirstExitFrom(points, i, minOutcome, maxOutcome)
    {
      var point := points[i];
      var minValue := Min3(point.close, point.high, point.low);
      if minValue < minOutcome {
        return minOutcome;
      }
      var maxValue := Max3(point.close, point.high, point.low);
      if maxValue > maxOutcome {
        return maxOutcome;
      }
    }
    return s.firstMax.value;
  }
}
