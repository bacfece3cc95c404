/**
 * The trading client's mutable state and the callbacks and requests that
 * change it: the request counter, the symbol records, the id-to-symbol
 * registries, the open-request list, the fetched bars, and the requests and
 * orders sent to the gateway (kept as logs, since the gateway is outside).
 */
module Engine {
  import opened Wrappers
  import opened Bars
  import opened Symbols
  import opened WaitLists

  const BASE_REQUEST_NUMBER: int := 1000
  const CANDLE_TIME_IN_SECONDS: int := 300
  const CONSTANT_QUANTITY_TO_ORDER: int := 1
  const MAX_OPEN_HISTORICAL_REQUESTS: nat := 50

  datatype Action = Buy | Sell
  datatype OrderType = Mkt | Stp | Lmt

  /** A `placeOrder` call: the order id, the symbol it trades and the order's fields. */
  datatype PlacedOrder = PlacedOrder(orderId: int, symbol: string, action: Action, orderType: OrderType,
                                     auxPrice: real, quantity: int)

  /** A `reqHistoricalData` call for 5-minute TRADES bars over `durationSeconds` up to `endDatetime`. */
  datatype HistoricalRequest = HistoricalRequest(reqId: int, symbol: string, endDatetime: string, durationSeconds: int)

  predicate DistinctNames(names: seq<string>)
  {
    forall i, j :: 0 <= i < j < |names| ==> names[i] != names[j]
  }

  /** The tickers of a list, as a set. */
  function NameSet(names: seq<string>): set<string>
  {
    if names == [] then {} else NameSet(names[..|names| - 1]) + {names[|names| - 1]}
  }

  lemma {:induction false} NameSetMembers(names: seq<string>)
    ensures forall n :: n in NameSet(names) <==> n in names
  {
    if names != [] {
      var init := names[..|names| - 1];
      NameSetMembers(init);
      assert names == init + [names[|names| - 1]];
    }
  }

  /** Walking one more ticker adds just that ticker. */
  lemma NameSetStep(names: seq<string>, i: int)
    requires 0 <= i < |names|
    ensures NameSet(names[..i + 1]) == NameSet(names[..i]) + {names[i]}
  {
    assert names[..i + 1][..i] == names[..i];
  }

  lemma NameSetHas(names: seq<string>, i: int)
    requires 0 <= i < |names|
    ensures names[i] in NameSet(names)
  {
    NameSetMembers(names);
    assert names[i] in names;
  }

  /** The tickers before position `i` are among all the tickers. */
  lemma NameSetPrefix(names: seq<string>, i: int)
    requires 0 <= i <= |names|
    ensures NameSet(names[..i]) <= NameSet(names)
  {
    NameSetMembers(names);
    NameSetMembers(names[..i]);
    forall n | n in NameSet(names[..i]) ensures n in NameSet(names) {
      var j :| 0 <= j < i && names[..i][j] == n;
      assert names[j] == n;
    }
  }

  /** In a list without repeats, a ticker is not among those before it. */
  lemma NameSetFresh(names: seq<string>, i: int)
    requires DistinctNames(names) && 0 <= i < |names|
    ensures names[i] !in NameSet(names[..i])
  {
    NameSetMembers(names[..i]);
    forall j | 0 <= j < i ensures names[..i][j] != names[i] {
    }
  }

  /** Every dict of the store has distinct keys, each the date of the bar under it. */
  ghost predicate StoreOk(store: map<string, seq<Entry>>)
  {
    forall n :: n in store ==> UniqueKeys(store[n]) && DatesAsKeys(store[n])
  }

  /** Every open request id is a registered one and is listed once. */
  ghost predicate RequestsOk(items: seq<int>, ids: map<int, string>)
  {
    (forall id :: id in items ==> id in ids) && Distinct(items)
  }

  /** Dropping an id from the open list keeps it valid, and the id is no longer open. */
  lemma RemoveKeepsRequests(items: seq<int>, ids: map<int, string>, x: int)
    requires RequestsOk(items, ids)
    ensures RequestsOk(RemoveFirst(items, x), ids) && x !in RemoveFirst(items, x)
  {
    RemoveFirstFromDistinct(items, x);
  }

  /** Registering a fresh id and listing it as open keeps the list valid. */
  lemma AppendKeepsRequests(items: seq<int>, ids: map<int, string>, x: int, name: string)
    requires RequestsOk(items, ids) && x !in ids
    ensures RequestsOk(items + [x], ids[x := name])
  {
    assert x !in items;
    assert multiset(items)[x] == 0;
  }

  /** Storing a bar under its date in one dict keeps the whole store well formed. */
  lemma StorePutKeepsStore(store: map<string, seq<Entry>>, name: string, bar: Bar)
    requires StoreOk(store)
    ensures StoreOk(store[name := Put(SeriesOf(store, name), bar.date, bar)])
  {
    var series := SeriesOf(store, name);
    PutSpec(series, bar.date, bar);
    PutKeepsDates(series, bar);
  }

  lemma DistinctPrefix(names: seq<string>, k: int)
    requires DistinctNames(names) && 0 <= k <= |names|
    ensures DistinctNames(names[..k])
  {
  }

  /** The store after walking `names`, each walked name's dict sorted by date. */
  function SortAll(store: map<string, seq<Entry>>, names: seq<string>): (r: map<string, seq<Entry>>)
    requires StoreOk(store)
    ensures StoreOk(r)
  {
    if names == [] then store
    else
      var s := SortAll(store, names[..|names| - 1]);
      var n := names[|names| - 1];
      SortKeepsDates(SeriesOf(s, n));
      s[n := SortByKey(SeriesOf(s, n))]
  }

  /**
   * Walking distinct names sorts exactly their dicts, each from the dict as
   * it was (a name without a dict gets an empty one), and keeps the others.
   */
  lemma {:induction false} SortAllSpec(store: map<string, seq<Entry>>, names: seq<string>)
    requires StoreOk(store) && DistinctNames(names)
    ensures var r := SortAll(store, names);
      && r.Keys == store.Keys + NameSet(names)
      && forall n :: n in r ==> r[n] == if n in NameSet(names) then SortByKey(SeriesOf(store, n)) else store[n]
  {
    if names != [] {
      var k := |names| - 1;
      DistinctPrefix(names, k);
      SortAllSpec(store, names[..k]);
      NameSetFresh(names, k);
    }
  }

  lemma SortAllStep(store: map<string, seq<Entry>>, names: seq<string>, i: int)
    requires StoreOk(store) && 0 <= i < |names|
    ensures var s := SortAll(store, names[..i]);
      SortAll(store, names[..i + 1]) == s[names[i] := SortByKey(SeriesOf(s, names[i]))]
  {
    assert names[..i + 1][..i] == names[..i];
  }

  /**
   * The loop of `order_collected_historical_data`: each listed name's dict is
   * replaced by its items sorted by date.
   */
  method SortDicts(store: map<string, seq<Entry>>, names: seq<string>) returns (r: map<string, seq<Entry>>)
    requires StoreOk(store)
    ensures r == SortAll(store, names)
  {
    r := store;
    for i := 0 to |names|
      invariant r == SortAll(store, names[..i])
    {
      SortAllStep(store, names, i);
      r := r[names[i] := SortByKey(SeriesOf(r, names[i]))];
    }
    assert names[..|names|] == names;
  }

  /** The symbols after walking `names`, each walked symbol given the aggregates of its dict's bars. */
  function FatAll(syms: map<string, SymbolState>, store: map<string, seq<Entry>>, names: seq<string>)
    : (r: map<string, SymbolState>)
    requires NameSet(names) <= syms.Keys && NameSet(names) <= store.Keys
    ensures r.Keys == syms.Keys
  {
    if names == [] then syms
    else
      var t := FatAll(syms, store, names[..|names| - 1]);
      var n := names[|names| - 1];
      t[n := With4fat(t[n], Values(store[n]))]
  }

  /** Walking distinct names updates exactly their symbols, each from the symbol as it was. */
  lemma {:induction false} FatAllSpec(syms: map<string, SymbolState>, store: map<string, seq<Entry>>, names: seq<string>)
    requires NameSet(names) <= syms.Keys && NameSet(names) <= store.Keys && DistinctNames(names)
    ensures var r := FatAll(syms, store, names);
      forall n :: n in r ==> r[n] == if n in NameSet(names) then With4fat(syms[n], Values(store[n])) else syms[n]
  {
    if names != [] {
      var k := |names| - 1;
      DistinctPrefix(names, k);
      FatAllSpec(syms, store, names[..k]);
      NameSetFresh(names, k);
    }
  }

  lemma FatAllStep(syms: map<string, SymbolState>, store: map<string, seq<Entry>>, names: seq<string>, i: int)
    requires 0 <= i < |names| && NameSet(names) <= syms.Keys && NameSet(names) <= store.Keys
    ensures NameSet(names[..i]) <= NameSet(names) && NameSet(names[..i + 1]) <= NameSet(names)
    ensures names[i] in syms && names[i] in store
    ensures var t := FatAll(syms, store, names[..i]);
      FatAll(syms, store, names[..i + 1]) == t[names[i] := With4fat(t[names[i]], Values(store[names[i]]))]
  {
    NameSetPrefix(names, i);
    NameSetPrefix(names, i + 1);
    NameSetHas(names, i);
    assert names[..i + 1][..i] == names[..i];
  }

  /**
   * The loop of `get_4fat_values_for_symbols`: each listed symbol gets the
   * four aggregates of its dict's bars, in the dict's order, and their maximum.
   */
  method Collect4fat(syms: map<string, SymbolState>, store: map<string, seq<Entry>>, names: seq<string>)
    returns (r: map<string, SymbolState>)
    requires NameSet(names) <= syms.Keys && NameSet(names) <= store.Keys
    ensures r == FatAll(syms, store, names)
  {
    r := syms;
    for i := 0 to |names|
      invariant NameSet(names[..i]) <= NameSet(names)
      invariant r == FatAll(syms, store, names[..i])
    {
      FatAllStep(syms, store, names, i);
      NameSetPrefix(names, i + 1);
      r := r[names[i] := With4fat(r[names[i]], Values(store[names[i]]))];
    }
    assert names[..|names|] == names;
  }

  /**
   * The symbols after walking `names`, each walked symbol given the
   * chronologically last bar of its dict as its opening candle.
   */
  function OpenAll(store: map<string, seq<Entry>>, syms: map<string, SymbolState>, names: seq<string>)
    : (r: map<string, SymbolState>)
    requires StoreOk(store) && NameSet(names) <= syms.Keys
    requires forall n :: n in NameSet(names) ==> SeriesOf(store, n) != []
    ensures r.Keys == syms.Keys
  {
    if names == [] then syms
    else
      var t := OpenAll(store, syms, names[..|names| - 1]);
      var n := names[|names| - 1];
      t[n := WithOpeningCandle(t[n], LatestEntry(SeriesOf(store, n)).bar)]
  }

  /** Walking distinct names updates exactly their symbols, each from the symbol as it was. */
  lemma {:induction false} OpenAllSpec(store: map<string, seq<Entry>>, syms: map<string, SymbolState>, names: seq<string>)
    requires StoreOk(store) && NameSet(names) <= syms.Keys && DistinctNames(names)
    requires forall n :: n in NameSet(names) ==> SeriesOf(store, n) != []
    ensures var r := OpenAll(store, syms, names);
      forall n :: n in r ==>
        r[n] == if n in NameSet(names) then WithOpeningCandle(syms[n], LatestEntry(SeriesOf(store, n)).bar) else syms[n]
  {
    if names != [] {
      var k := |names| - 1;
      DistinctPrefix(names, k);
      OpenAllSpec(store, syms, names[..k]);
      NameSetFresh(names, k);
    }
  }

  /** A name not yet walked still has its dict as it was. */
  lemma {:induction false} SortAllUntouched(store: map<string, seq<Entry>>, names: seq<string>, n: string)
    requires StoreOk(store) && n !in NameSet(names)
    ensures SeriesOf(SortAll(store, names), n) == SeriesOf(store, n)
  {
    if names != [] {
      SortAllUntouched(store, names[..|names| - 1], n);
    }
  }

  lemma OpenAllStep(store: map<string, seq<Entry>>, syms: map<string, SymbolState>, names: seq<string>, i: int)
    requires DistinctNames(names) && StoreOk(store) && NameSet(names) <= syms.Keys
    requires forall n :: n in NameSet(names) ==> SeriesOf(store, n) != []
    requires 0 <= i < |names|
    ensures NameSet(names[..i]) <= NameSet(names) && NameSet(names[..i + 1]) <= NameSet(names)
    ensures names[i] in syms
    ensures var sorted := SortByKey(SeriesOf(SortAll(store, names[..i]), names[i]));
      && sorted != []
      && var t := OpenAll(store, syms, names[..i]);
         OpenAll(store, syms, names[..i + 1]) == t[names[i] := WithOpeningCandle(t[names[i]], sorted[|sorted| - 1].bar)]
  {
    NameSetPrefix(names, i);
    NameSetPrefix(names, i + 1);
    NameSetHas(names, i);
    NameSetFresh(names, i);
    var n := names[i];
    var es := SeriesOf(store, n);
    SortAllUntouched(store, names[..i], n);
    var sorted := SortByKey(es);
    assert |sorted| == |es| > 0;
    assert LatestEntry(es) == sorted[|sorted| - 1];
    assert names[..i + 1][..i] == names[..i];
  }

  /**
   * The loop of `update_symbols_current_data`: each listed symbol's dict is
   * sorted by date and its last bar becomes the symbol's opening candle.
   */
  method SortAndOpen(store: map<string, seq<Entry>>, syms: map<string, SymbolState>, names: seq<string>)
    returns (r: map<string, seq<Entry>>, t: map<string, SymbolState>)
    requires DistinctNames(names) && StoreOk(store) && NameSet(names) <= syms.Keys
    requires forall n :: n in NameSet(names) ==> SeriesOf(store, n) != []
    ensures r == SortAll(store, names) && t == OpenAll(store, syms, names)
  {
    r, t := store, syms;
    for i := 0 to |names|
      invariant NameSet(names[..i]) <= NameSet(names)
      invariant r == SortAll(store, names[..i]) && t == OpenAll(store, syms, names[..i])
    {
      SortAllStep(store, names, i);
      OpenAllStep(store, syms, names, i);
      var n := names[i];
      var sorted := SortByKey(SeriesOf(r, n));
      r := r[n := sorted];
      var lastCandle := sorted[|sorted| - 1].bar;
      t := t[n := WithOpeningCandle(t[n], lastCandle)];
    }
    assert names[..|names|] == names;
  }

  /**
   * One `Symbol` per traded ticker, keyed by its own name; each symbol's
   * request id names it, and every id in use was handed out by the counter.
   */
  ghost predicate RegistryOk(names: seq<string>, syms: map<string, SymbolState>, ids: map<int, string>, counter: int)
  {
    && DistinctNames(names)
    && syms.Keys == NameSet(names)
    && (forall n :: n in syms ==> syms[n].name == n && syms[n].id in ids && ids[syms[n].id] == n)
    && counter >= BASE_REQUEST_NUMBER
    && (forall id :: id in ids ==> BASE_REQUEST_NUMBER < id <= counter)
  }

  /** Rewriting the other fields of the symbols keeps the registry. */
  lemma SameIdentitiesKeepRegistry(names: seq<string>, syms: map<string, SymbolState>, t: map<string, SymbolState>,
                                   ids: map<int, string>, counter: int)
    requires RegistryOk(names, syms, ids, counter)
    requires t.Keys == syms.Keys && forall n :: n in t ==> t[n].name == syms[n].name && t[n].id == syms[n].id
    ensures RegistryOk(names, t, ids, counter)
  {
  }

  /** Replacing one symbol by a record of the same name and id keeps the registry intact. */
  lemma UpdateKeepsRegistry(names: seq<string>, syms: map<string, SymbolState>, ids: map<int, string>, counter: int,
                            n: string, s: SymbolState)
    requires RegistryOk(names, syms, ids, counter)
    requires n in syms && s.name == syms[n].name && s.id == syms[n].id
    ensures RegistryOk(names, syms[n := s], ids, counter)
  {
    SameIdentitiesKeepRegistry(names, syms, syms[n := s], ids, counter);
  }

  /** Numbering the tickers in order makes each symbol's id name that symbol. */
  lemma NumberedRoundTrip(names: seq<string>, syms: map<string, SymbolState>, ids: map<int, string>)
    requires syms.Keys == NameSet(names)
    requires forall i :: 0 <= i < |names| ==>
      names[i] in syms && syms[names[i]] == NewSymbol(names[i], BASE_REQUEST_NUMBER + 1 + i)
    requires forall i :: 0 <= i < |names| ==> BASE_REQUEST_NUMBER + 1 + i in ids && ids[BASE_REQUEST_NUMBER + 1 + i] == names[i]
    ensures forall n :: n in syms ==> syms[n].name == n && syms[n].id in ids && ids[syms[n].id] == n
  {
    NameSetMembers(names);
    forall n | n in syms ensures syms[n].name == n && syms[n].id in ids && ids[syms[n].id] == n {
      assert n in names;
      var j :| 0 <= j < |names| && names[j] == n;
    }
  }

  /**
   * Start-up: `symbol_objects`, one `Symbol` per ticker in order, each taking
   * the next request id, and `ID_TO_SYMBOL`, each such id naming its ticker.
   */
  method NewRegistry(names: seq<string>) returns (syms: map<string, SymbolState>, ids: map<int, string>)
    requires DistinctNames(names)
    ensures syms.Keys == NameSet(names)
    ensures forall i :: 0 <= i < |names| ==>
      names[i] in syms && syms[names[i]] == NewSymbol(names[i], BASE_REQUEST_NUMBER + 1 + i)
    ensures forall id :: id in ids <==> BASE_REQUEST_NUMBER < id <= BASE_REQUEST_NUMBER + |names|
    ensures forall i :: 0 <= i < |names| ==> ids[BASE_REQUEST_NUMBER + 1 + i] == names[i]
    ensures forall n :: n in syms ==> syms[n].name == n && syms[n].id in ids && ids[syms[n].id] == n
  {
    syms, ids := map[], map[];
    for i := 0 to |names|
      invariant syms.Keys == NameSet(names[..i])
      invariant forall j :: 0 <= j < i ==>
        names[j] in syms && syms[names[j]] == NewSymbol(names[j], BASE_REQUEST_NUMBER + 1 + j)
      invariant forall id :: id in ids <==> BASE_REQUEST_NUMBER < id <= BASE_REQUEST_NUMBER + i
      invariant forall j :: 0 <= j < i ==> ids[BASE_REQUEST_NUMBER + 1 + j] == names[j]
    {
      NameSetStep(names, i);
      NameSetFresh(names, i);
      syms := syms[names[i] := NewSymbol(names[i], BASE_REQUEST_NUMBER + 1 + i)];
      ids := ids[BASE_REQUEST_NUMBER + 1 + i := names[i]];
    }
    assert names[..|names|] == names;
    NumberedRoundTrip(names, syms, ids);
  }

  class Engine {
    /** `SYMBOLS`, the tickers traded. */
    const symbolNames: seq<string>
    /** `BASE_REQUEST_NUMBER` after the increments of `generate_request_index`. */
    var requestCounter: int
    /** `symbol_objects`. */
    var symbols: map<string, SymbolState>
    /** `ID_TO_SYMBOL`: request id to the symbol the request is for. */
    var idToSymbol: map<int, string>
    /** `ORDER_IDS_TO_SYMBOL`: live buy orders. */
    var orderIdsToSymbol: map<int, string>
    /** `SELL_IDS_TO_SYMBOL`: live sell orders. */
    var sellIdsToSymbol: map<int, string>
    /** `OPEN_HISTORICAL_REQUESTS_IDS`. */
    const openRequests: WaitList
    /** `fetched_data`: per symbol, the dict of bars keyed by date. */
    var fetchedData: map<string, seq<Entry>>
    /** `simplePlaceOid`: the id of the last order placed. */
    var simplePlaceOid: Option<int>
    /** The historical-data requests sent, in order. */
    var historicalRequests: seq<HistoricalRequest>
    /** The orders sent, in order. */
    var placedOrders: seq<PlacedOrder>

    /** The symbols are the traded tickers, and each symbol's own request id names it. */
    ghost predicate RegistryValid()
      reads this`symbols, this`idToSymbol, this`requestCounter
    {
      RegistryOk(symbolNames, symbols, idToSymbol, requestCounter)
    }

    /** Every open request is a registered one, listed once, and there are at most 50. */
    ghost predicate RequestsValid()
      reads this`idToSymbol, openRequests
    {
      && openRequests.Valid()
      && openRequests.maxLen == MAX_OPEN_HISTORICAL_REQUESTS
      && RequestsOk(openRequests.items, idToSymbol)
    }

    /** No order id is both a live buy and a live sell. */
    ghost predicate OrdersValid()
      reads this`orderIdsToSymbol, this`sellIdsToSymbol
    {
      orderIdsToSymbol.Keys !! sellIdsToSymbol.Keys
    }

    /** Every stored dict has distinct keys, each the date of the bar under it. */
    ghost predicate StoreValid()
      reads this`fetchedData
    {
      StoreOk(fetchedData)
    }

    ghost predicate Valid()
      reads this, openRequests
    {
      RegistryValid() && RequestsValid() && OrdersValid() && StoreValid()
    }

    /**
     * Module start-up: one `Symbol` per ticker, each taking the next request
     * id, registered in `ID_TO_SYMBOL`; everything else empty.
     */
    constructor (names: seq<string>)
      requires DistinctNames(names)
      ensures Valid()
      ensures symbolNames == names && requestCounter == BASE_REQUEST_NUMBER + |names|
      ensures forall i :: 0 <= i < |names| ==>
        names[i] in symbols && symbols[names[i]] == NewSymbol(names[i], BASE_REQUEST_NUMBER + 1 + i)
      ensures forall id :: id in idToSymbol <==> BASE_REQUEST_NUMBER < id <= requestCounter
      ensures forall i :: 0 <= i < |names| ==> idToSymbol[BASE_REQUEST_NUMBER + 1 + i] == names[i]
      ensures orderIdsToSymbol == map[] && sellIdsToSymbol == map[] && fetchedData == map[]
      ensures fresh(openRequests) && openRequests.items == []
      ensures simplePlaceOid == None && historicalRequests == [] && placedOrders == []
    {
      var syms, ids := NewRegistry(names);
      symbolNames := names;
      requestCounter := BASE_REQUEST_NUMBER + |names|;
      symbols := syms;
      idToSymbol := ids;
      orderIdsToSymbol := map[];
      sellIdsToSymbol := map[];
      openRequests := new WaitList(MAX_OPEN_HISTORICAL_REQUESTS);
      fetchedData := map[];
      simplePlaceOid := None;
      historicalRequests := [];
      placedOrders := [];
    }

    /** `generate_request_index`: the next id, larger than every id handed out before. */
    method GenerateRequestIndex() returns (id: int)
      requires Valid()
      modifies this`requestCounter
      ensures Valid()
      ensures id == old(requestCounter) + 1 && requestCounter == id
      ensures id !in idToSymbol && id > BASE_REQUEST_NUMBER
    {
      requestCounter := requestCounter + 1;
      id := requestCounter;
    }

    /**
     * `request_bars_for_stock`: registers a fresh request id for the symbol,
     * records it as open and sends the request for `amountOfCandles` bars.
     * The source waits for room in the open list; the caller here must
     * already have it.
     */
    method RequestBarsForStock(symbolName: string, endDatetime: string := "", amountOfCandles: int := 78)
      requires Valid() && |openRequests.items| < MAX_OPEN_HISTORICAL_REQUESTS
      modifies this, openRequests
      ensures Valid()
      ensures requestCounter == old(requestCounter) + 1
      ensures requestCounter !in old(idToSymbol) && idToSymbol == old(idToSymbol)[requestCounter := symbolName]
      ensures openRequests.items == old(openRequests.items) + [requestCounter]
      ensures historicalRequests == old(historicalRequests)
        + [HistoricalRequest(requestCounter, symbolName, endDatetime, amountOfCandles * CANDLE_TIME_IN_SECONDS)]
      ensures symbols == old(symbols) && fetchedData == old(fetchedData)
      ensures orderIdsToSymbol == old(orderIdsToSymbol) && sellIdsToSymbol == old(sellIdsToSymbol)
      ensures simplePlaceOid == old(simplePlaceOid) && placedOrders == old(placedOrders)
    {
      var reqId := GenerateRequestIndex();
      AppendKeepsRequests(openRequests.items, idToSymbol, reqId, symbolName);
      idToSymbol := idToSymbol[reqId := symbolName];
      openRequests.Append(reqId);
      historicalRequests := historicalRequests
        + [HistoricalRequest(reqId, symbolName, endDatetime, amountOfCandles * CANDLE_TIME_IN_SECONDS)];
    }

    /**
     * `historicalData`: stores the bar in its symbol's dict under the bar's
     * date and drops the request id from the open list if it is there. An
     * id never registered makes the source raise `KeyError`; callers must
     * not pass one.
     */
    method HistoricalData(reqId: int, bar: Bar)
      requires Valid() && reqId in idToSymbol
      modifies this, openRequests
      ensures Valid()
      ensures var name := old(idToSymbol)[reqId];
        && fetchedData == old(fetchedData)[name := Put(SeriesOf(old(fetchedData), name), bar.date, bar)]
        && ToMap(fetchedData[name]) == ToMap(SeriesOf(old(fetchedData), name))[bar.date := bar]
      ensures openRequests.items == RemoveFirst(old(openRequests.items), reqId) && reqId !in openRequests.items
      ensures requestCounter == old(requestCounter) && symbols == old(symbols) && idToSymbol == old(idToSymbol)
      ensures orderIdsToSymbol == old(orderIdsToSymbol) && sellIdsToSymbol == old(sellIdsToSymbol)
      ensures simplePlaceOid == old(simplePlaceOid)
      ensures historicalRequests == old(historicalRequests) && placedOrders == old(placedOrders)
    {
      RemoveKeepsRequests(openRequests.items, idToSymbol, reqId);
      var _ := openRequests.Remove(reqId);
      var name := idToSymbol[reqId];
      var series := SeriesOf(fetchedData, name);
      PutSpec(series, bar.date, bar);
      StorePutKeepsStore(fetchedData, name, bar);
      fetchedData := fetchedData[name := Put(series, bar.date, bar)];
    }

    /**
     * `order_collected_historical_data`: every traded symbol's dict becomes
     * its items sorted by date (a symbol with no bars gets an empty dict);
     * the dicts of other names are left as they are.
     */
    method OrderCollectedHistoricalData()
      requires Valid()
      modifies this
      ensures Valid()
      ensures fetchedData.Keys == old(fetchedData).Keys + symbols.Keys
      ensures forall n :: n in symbols ==>
        fetchedData[n] == SortByKey(SeriesOf(old(fetchedData), n)) && StrictlyAscending(fetchedData[n])
      ensures forall n :: n in old(fetchedData) && n !in symbols ==> fetchedData[n] == old(fetchedData)[n]
      ensures requestCounter == old(requestCounter) && symbols == old(symbols) && idToSymbol == old(idToSymbol)
      ensures orderIdsToSymbol == old(orderIdsToSymbol) && sellIdsToSymbol == old(sellIdsToSymbol)
      ensures simplePlaceOid == old(simplePlaceOid)
      ensures historicalRequests == old(historicalRequests) && placedOrders == old(placedOrders)
    {
      SortAllSpec(fetchedData, symbolNames);
      fetchedData := SortDicts(fetchedData, symbolNames);
    }

    /**
     * `get_4fat_values_for_symbols`: orders the fetched bars, then records for
     * every symbol the four aggregates of its ordered series and their
     * maximum. The source walks the keys of `fetched_data`, which after
     * ordering are the traded symbols plus any other requested name; such a
     * name makes the source raise `KeyError`, so the store may hold only
     * traded symbols.
     */
    method Get4fatValuesForSymbols()
      requires Valid() && fetchedData.Keys <= symbols.Keys
      modifies this
      ensures Valid()
      ensures fetchedData.Keys == symbols.Keys == old(symbols).Keys
      ensures forall n :: n in symbols ==> fetchedData[n] == SortByKey(SeriesOf(old(fetchedData), n))
      ensures forall n :: n in symbols ==>
        symbols[n] == With4fat(old(symbols)[n], OrderedSeries(SeriesOf(old(fetchedData), n)))
      ensures requestCounter == old(requestCounter) && idToSymbol == old(idToSymbol)
      ensures orderIdsToSymbol == old(orderIdsToSymbol) && sellIdsToSymbol == old(sellIdsToSymbol)
      ensures simplePlaceOid == old(simplePlaceOid)
      ensures historicalRequests == old(historicalRequests) && placedOrders == old(placedOrders)
    {
      OrderCollectedHistoricalData();
      FatAllSpec(symbols, fetchedData, symbolNames);
      var syms := Collect4fat(symbols, fetchedData, symbolNames);
      SameIdentitiesKeepRegistry(symbolNames, symbols, syms, idToSymbol, requestCounter);
      symbols := syms;
    }

    /**
     * `update_symbols_current_data`: sorts every traded symbol's dict and
     * copies the chronologically last bar into the symbol's opening-candle
     * fields. A symbol without bars makes the source raise `IndexError`, so
     * every traded symbol must have bars.
     */
    method UpdateSymbolsCurrentData()
      requires Valid() && forall n :: n in symbols ==> SeriesOf(fetchedData, n) != []
      modifies this`fetchedData, this`symbols
      ensures Valid()
      ensures fetchedData.Keys == old(fetchedData).Keys + symbols.Keys && symbols.Keys == old(symbols).Keys
      ensures forall n :: n in symbols ==> fetchedData[n] == SortByKey(SeriesOf(old(fetchedData), n))
      ensures forall n :: n in old(fetchedData) && n !in symbols ==> fetchedData[n] == old(fetchedData)[n]
      ensures forall n :: n in symbols ==>
        symbols[n] == WithOpeningCandle(old(symbols)[n], LatestEntry(SeriesOf(old(fetchedData), n)).bar)
    {
      SortAllSpec(fetchedData, symbolNames);
      OpenAllSpec(fetchedData, symbols, symbolNames);
      var store, syms := SortAndOpen(fetchedData, symbols, symbolNames);
      SameIdentitiesKeepRegistry(symbolNames, symbols, syms, idToSymbol, requestCounter);
      fetchedData, symbols := store, syms;
    }

    /**
     * `place_buy_market`: a BUY MKT order under `orderId` (the gateway's
     * `nextOrderId`, which never repeats), registered as a live buy.
     */
    method PlaceBuyMarket(orderId: int, stopPrice: real, quantity: int, symbolName: string)
      requires Valid() && orderId !in orderIdsToSymbol && orderId !in sellIdsToSymbol
      modifies this
      ensures Valid()
      ensures orderIdsToSymbol == old(orderIdsToSymbol)[orderId := symbolName]
      ensures placedOrders == old(placedOrders) + [PlacedOrder(orderId, symbolName, Buy, Mkt, stopPrice, quantity)]
      ensures simplePlaceOid == Some(orderId)
      ensures sellIdsToSymbol == old(sellIdsToSymbol) && symbols == old(symbols) && fetchedData == old(fetchedData)
      ensures requestCounter == old(requestCounter) && idToSymbol == old(idToSymbol)
      ensures historicalRequests == old(historicalRequests)
    {
      simplePlaceOid := Some(orderId);
      orderIdsToSymbol := orderIdsToSymbol[orderId := symbolName];
      placedOrders := placedOrders + [PlacedOrder(orderId, symbolName, Buy, Mkt, stopPrice, quantity)];
    }

    /** `place_sell_stop`: a SELL STP order at `stopPrice`, registered as a live sell. */
    method PlaceSellStop(orderId: int, stopPrice: real, quantity: int, symbolName: string)
      requires Valid() && orderId !in orderIdsToSymbol && orderId !in sellIdsToSymbol
      modifies this
      ensures Valid()
      ensures sellIdsToSymbol == old(sellIdsToSymbol)[orderId := symbolName]
      ensures placedOrders == old(placedOrders) + [PlacedOrder(orderId, symbolName, Sell, Stp, stopPrice, quantity)]
      ensures simplePlaceOid == Some(orderId)
      ensures orderIdsToSymbol == old(orderIdsToSymbol) && symbols == old(symbols) && fetchedData == old(fetchedData)
      ensures requestCounter == old(requestCounter) && idToSymbol == old(idToSymbol)
      ensures historicalRequests == old(historicalRequests)
    {
      simplePlaceOid := Some(orderId);
      sellIdsToSymbol := sellIdsToSymbol[orderId := symbolName];
      placedOrders := placedOrders + [PlacedOrder(orderId, symbolName, Sell, Stp, stopPrice, quantity)];
    }

    /** `place_sell_limit`: a SELL LMT order at `stopPrice`, registered as a live sell. */
    method PlaceSellLimit(orderId: int, stopPrice: real, quantity: int, symbolName: string)
      requires Valid() && orderId !in orderIdsToSymbol && orderId !in sellIdsToSymbol
      modifies this
      ensures Valid()
      ensures sellIdsToSymbol == old(sellIdsToSymbol)[orderId := symbolName]
      ensures placedOrders == old(placedOrders) + [PlacedOrder(orderId, symbolName, Sell, Lmt, stopPrice, quantity)]
      ensures simplePlaceOid == Some(orderId)
      ensures orderIdsToSymbol == old(orderIdsToSymbol) && symbols == old(symbols) && fetchedData == old(fetchedData)
      ensures requestCounter == old(requestCounter) && idToSymbol == old(idToSymbol)
      ensures historicalRequests == old(historicalRequests)
    {
      simplePlaceOid := Some(orderId);
      sellIdsToSymbol := sellIdsToSymbol[orderId := symbolName];
      placedOrders := placedOrders + [PlacedOrder(orderId, symbolName, Sell, Lmt, stopPrice, quantity)];
    }

    /**
     * `orderStatus`. Only a "Filled" status acts. A filled buy marks its
     * symbol owned at the fill price, retires the buy id and places the two
     * exits, a stop at `calc_stop_value` under `stopId` and a limit at
     * `calc_market_sell_value` under `limitId` (the gateway's next two order
     * ids). A filled sell marks its symbol no longer owned at the fill price
     * and retires the sell id. Any other id or status changes nothing. The
     * symbol must be a traded one (else `KeyError`), and a filled buy reads
     * the opening-candle fields, which must therefore be set.
     */
    method OrderStatus(orderId: int, status: string, avgFillPrice: real, mktCapPrice: real, stopId: int, limitId: int)
      requires Valid()
      requires status == "Filled" && orderId in orderIdsToSymbol ==>
        && orderIdsToSymbol[orderId] in symbols
        && symbols[orderIdsToSymbol[orderId]].firstClose.Some?
        && symbols[orderIdsToSymbol[orderId]].firstDiff.Some?
        && stopId != limitId
        && stopId !in orderIdsToSymbol && stopId !in sellIdsToSymbol
        && limitId !in orderIdsToSymbol && limitId !in sellIdsToSymbol
      requires status == "Filled" && orderId in sellIdsToSymbol ==> sellIdsToSymbol[orderId] in symbols
      modifies this
      ensures Valid()
      ensures status == "Filled" && orderId in old(orderIdsToSymbol) ==>
        var name := old(orderIdsToSymbol)[orderId];
        var s := old(symbols)[name];
        && symbols == old(symbols)[name := FilledBuy(s, avgFillPrice, mktCapPrice)]
        && orderIdsToSymbol == old(orderIdsToSymbol) - {orderId}
        && sellIdsToSymbol == old(sellIdsToSymbol)[stopId := name][limitId := name]
        && placedOrders == old(placedOrders) + [
             PlacedOrder(stopId, name, Sell, Stp, CalcStopValue(s), CONSTANT_QUANTITY_TO_ORDER),
             PlacedOrder(limitId, name, Sell, Lmt, CalcMarketSellValue(s), CONSTANT_QUANTITY_TO_ORDER)]
        && simplePlaceOid == Some(limitId)
      ensures status == "Filled" && orderId in old(sellIdsToSymbol) ==>
        var name := old(sellIdsToSymbol)[orderId];
        && symbols == old(symbols)[name := FilledSell(old(symbols)[name], avgFillPrice, mktCapPrice)]
        && sellIdsToSymbol == old(sellIdsToSymbol) - {orderId}
        && orderIdsToSymbol == old(orderIdsToSymbol)
        && placedOrders == old(placedOrders) && simplePlaceOid == old(simplePlaceOid)
      ensures status != "Filled" || (orderId !in old(orderIdsToSymbol) && orderId !in old(sellIdsToSymbol)) ==>
        && symbols == old(symbols)
        && orderIdsToSymbol == old(orderIdsToSymbol) && sellIdsToSymbol == old(sellIdsToSymbol)
        && placedOrders == old(placedOrders) && simplePlaceOid == old(simplePlaceOid)
      ensures requestCounter == old(requestCounter) && idToSymbol == old(idToSymbol)
      ensures fetchedData == old(fetchedData) && historicalRequests == old(historicalRequests)
    {
      if status == "Filled" {
        if orderId in orderIdsToSymbol {
          var symbolName := orderIdsToSymbol[orderId];
          var symbol := symbols[symbolName];
          UpdateKeepsRegistry(symbolNames, symbols, idToSymbol, requestCounter, symbolName, FilledBuy(symbol, avgFillPrice, mktCapPrice));
          symbols := symbols[symbolName := FilledBuy(symbol, avgFillPrice, mktCapPrice)];
          orderIdsToSymbol := orderIdsToSymbol - {orderId};
          var bottomStopValue := CalcStopValue(symbol);
          var sellValue := CalcMarketSellValue(symbol);
          PlaceSellStop(stopId, bottomStopValue, CONSTANT_QUANTITY_TO_ORDER, symbolName);
          PlaceSellLimit(limitId, sellValue, CONSTANT_QUANTITY_TO_ORDER, symbolName);
        }
        if orderId in sellIdsToSymbol {
          var symbolName := sellIdsToSymbol[orderId];
          var sold := FilledSell(symbols[symbolName], avgFillPrice, mktCapPrice);
          UpdateKeepsRegistry(symbolNames, symbols, idToSymbol, requestCounter, symbolName, sold);
          symbols := symbols[symbolName := sold];
          sellIdsToSymbol := sellIdsToSymbol - {orderId};
        }
      }
    }
  }
}
