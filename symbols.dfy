/**
 * A traded symbol's record (the source's `Symbol` class) and the rules read
 * off it: the breakout eligibility tests, the exit prices of the bracket and
 * the profit ratio. The record is a value; the engine keeps one per ticker
 * and replaces it when the source assigns a field.
 */
module Symbols {
  import opened Wrappers
  import opened Bars
  import opened Signals

  /** Fields the source initialises to `None` are `Option`s. */
  datatype SymbolState = SymbolState(
    name: string,
    id: int,
    maxValueOf4fat: Option<real>,
    firstValue: Option<real>,
    firstVolume: Option<int>,
    firstDiff: Option<real>,
    firstClose: Option<real>,
    firstMax: Option<real>,
    collected4fat: Option<FourFat>,
    intentionToBuy: bool,
    isOwned: bool,
    buyingPrice: Option<real>,
    buyingCap: Option<real>,
    sellingPrice: Option<real>,
    sellingCap: Option<real>)

  /** `Symbol(name, id)` as constructed: only the name and id are set. */
  function NewSymbol(name: string, id: int): SymbolState
  {
    SymbolState(name, id, None, None, None, None, None, None, None, false, false, None, None, None, None)
  }

  /** What `update_symbols_current_data` writes from the chronologically last bar. */
  function WithOpeningCandle(s: SymbolState, b: Bar): SymbolState
  {
    s.(firstValue := Some(b.close), firstVolume := Some(b.volume), firstDiff := Some(b.close - b.open),
       firstMax := Some(b.high), firstClose := Some(b.close))
  }

  /** What `get_4fat_values_for_symbols` writes from the ordered series. */
  function With4fat(s: SymbolState, bars: seq<Bar>): SymbolState
  {
    var f := CollectFourFat(bars);
    s.(maxValueOf4fat := Some(MaxValueOf4fat(f)), collected4fat := Some(f))
  }

  /**
   * The fields a filled buy order sets. The source assigns them on the name
   * string (`symbol_name.is_owned = True`, which would raise); the evident
   * intent, the Symbol looked up by that name, is modelled.
   */
  function FilledBuy(s: SymbolState, avgFillPrice: real, mktCapPrice: real): SymbolState
  {
    s.(isOwned := true, intentionToBuy := false, buyingPrice := Some(avgFillPrice), buyingCap := Some(mktCapPrice))
  }

  /** The fields a filled sell order sets, on the Symbol rather than the name as above. */
  function FilledSell(s: SymbolState, avgFillPrice: real, mktCapPrice: real): SymbolState
  {
    s.(isOwned := false, sellingPrice := Some(avgFillPrice), sellingCap := Some(mktCapPrice))
  }

  /** is_last_candle_big_enough: a rise above 2, or above 1.5 for a stock under 100. */
  predicate IsLastCandleBigEnough(s: SymbolState)
    requires s.firstDiff.Some? && s.firstValue.Some?
  {
    s.firstDiff.value > 2.0 || (s.firstDiff.value > 1.5 && s.firstValue.value < 100.0)
  }

  /** is_last_candle_higher_than_4fat */
  predicate IsLastCandleHigherThan4fat(s: SymbolState)
    requires s.firstValue.Some? && s.maxValueOf4fat.Some?
  {
    s.firstValue.value > s.maxValueOf4fat.value
  }

  /** is_eligible_to_purchase; Python's `and` reads `first_diff` only when the first test passes. */
  predicate IsEligibleToPurchase(s: SymbolState)
    requires s.firstValue.Some? && s.maxValueOf4fat.Some?
    requires IsLastCandleHigherThan4fat(s) ==> s.firstDiff.Some?
  {
    IsLastCandleHigherThan4fat(s) && IsLastCandleBigEnough(s)
  }

  /** calc_stop_value. The source reads an undefined global `symbol_object`; the evident intent, `self`, is modelled. */
  function CalcStopValue(s: SymbolState): real
    requires s.firstClose.Some? && s.firstDiff.Some?
  {
    s.firstClose.value - s.firstDiff.value
  }

  /** calc_market_sell_value, with `self` for the undefined global as above. */
  function CalcMarketSellValue(s: SymbolState): real
    requires s.firstClose.Some? && s.firstDiff.Some?
  {
    s.firstClose.value + s.firstDiff.value * 2.0
  }

  /**
   * calc_profit: `selling_cap / buying_cap` once both are known, else `None`.
   * A zero buying cap would raise in the source, so callers must not reach it.
   */
  function CalcProfit(s: SymbolState): (r: Option<real>)
    requires s.buyingCap.Some? && s.sellingCap.Some? ==> s.buyingCap.value != 0.0
    ensures r.Some? <==> s.buyingCap.Some? && s.sellingCap.Some?
    ensures r.Some? ==> r.value * s.buyingCap.value == s.sellingCap.value
  {
    if s.buyingCap.Some? && s.sellingCap.Some? then
      var ratio := s.sellingCap.value / s.buyingCap.value;
      DivTimes(s.sellingCap.value, s.buyingCap.value);
      Some(ratio)
    else None
  }

  lemma DivTimes(a: real, b: real)
    requires b != 0.0
    ensures (a / b) * b == a
  {
  }

  /**
   * An eligible symbol, with `first_close` set to `first_value` as the
   * update does, gets a bracket around its price: the stop below, the limit
   * above, the limit twice as far away as the stop.
   */
  lemma EligibleBracketsPrice(s: SymbolState)
    requires s.firstValue.Some? && s.maxValueOf4fat.Some? && s.firstDiff.Some? && s.firstClose == s.firstValue
    requires IsEligibleToPurchase(s)
    ensures s.firstDiff.value > 1.5
    ensures CalcStopValue(s) < s.firstClose.value < CalcMarketSellValue(s)
    ensures CalcMarketSellValue(s) - s.firstClose.value == 2.0 * (s.firstClose.value - CalcStopValue(s))
  {
  }

  /** An eligible symbol's price exceeds each of the four 4FAT values it was compared with. */
  lemma EligibleAboveEvery4fatValue(s: SymbolState, bars: seq<Bar>)
    requires s.firstValue.Some? && s.firstDiff.Some?
    requires s.maxValueOf4fat == Some(MaxValueOf4fat(CollectFourFat(bars)))
    requires IsEligibleToPurchase(s)
    ensures s.firstValue.value > AnalyzeFor200Avg(bars) && s.firstValue.value > AnalyzeFor20Avg(bars)
    ensures s.firstValue.value > AnalyzeFor6MaxValue(bars) && s.firstValue.value > AnalyzeForClosingPrice(bars)
  {
    MaxValueOf4fatSpec(CollectFourFat(bars));
  }

  /** The sentinel fails closed: with no bars, no price up to `10 ** 10` is eligible. */
  lemma EmptySeriesNeverEligible(s: SymbolState)
    requires s.firstValue.Some? && s.firstDiff.Some? && s.firstValue.value <= SENTINEL
    requires s.maxValueOf4fat == Some(MaxValueOf4fat(CollectFourFat([])))
    ensures !IsEligibleToPurchase(s)
  {
    EmptySeriesIsSentinel();
  }

  /**
   * A buy fill followed by a sell fill leaves the symbol unowned with a
   * defined profit ratio; the exit prices, read from the opening candle, are
   * the same before and after the buy fill.
   */
  lemma RoundTripSettles(s: SymbolState, buyPrice: real, buyCap: real, sellPrice: real, sellCap: real)
    requires buyCap != 0.0 && s.firstClose.Some? && s.firstDiff.Some?
    ensures var b := FilledBuy(s, buyPrice, buyCap);
      b.isOwned && !b.intentionToBuy && CalcStopValue(b) == CalcStopValue(s) && CalcMarketSellValue(b) == CalcMarketSellValue(s)
    ensures var t := FilledSell(FilledBuy(s, buyPrice, buyCap), sellPrice, sellCap);
      !t.isOwned && CalcProfit(t).Some? && CalcProfit(t).value * buyCap == sellCap
  {
  }

  /**
   * An opening candle from 8 to 10 against a threshold of 9 is eligible
   * (a rise of 2 on a stock under 100); the bracket is then 8 and 14.
   */
  lemma OpeningCandleExample()
    ensures var s := WithOpeningCandle(NewSymbol("BABA", 1001), Bar("20240102  09:30:00", 8.0, 11.0, 7.0, 10.0, 500)).(maxValueOf4fat := Some(9.0));
      IsEligibleToPurchase(s) && CalcStopValue(s) == 8.0 && CalcMarketSellValue(s) == 14.0
  {
  }
}
