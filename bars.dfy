/**
 * The bar store: each symbol's bars live in a Python dict keyed by the bar's
 * date string. A dict keeps its keys in insertion order, so it is modelled as
 * the list of its items. Bars arrive in any order; `SortByKey` is the
 * `sorted(d.items())` the source applies before reading the series.
 */
module Bars {
  import opened Text

  /** One candle as the gateway delivers it; prices are exact reals. */
  datatype Bar = Bar(date: string, open: real, high: real, low: real, close: real, volume: int)

  /** One item of a symbol's bar dict: the date key and the bar stored under it. */
  datatype Entry = Entry(key: string, bar: Bar)

  /** The key-to-bar mapping that a list of dict items represents. */
  function ToMap(es: seq<Entry>): map<string, Bar>
  {
    if es == [] then map[] else ToMap(es[1..])[es[0].key := es[0].bar]
  }

  /** No key occurs twice, as in the items of a real dict. */
  predicate UniqueKeys(es: seq<Entry>)
  {
    es == [] || (es[0].key !in ToMap(es[1..]) && UniqueKeys(es[1..]))
  }

  /** Every item is stored under its own bar's date, as `historicalData` stores them. */
  predicate DatesAsKeys(es: seq<Entry>)
  {
    es == [] || (es[0].key == es[0].bar.date && DatesAsKeys(es[1..]))
  }

  lemma {:induction false} DatesAsKeysAt(es: seq<Entry>, i: int)
    requires DatesAsKeys(es) && 0 <= i < |es|
    ensures es[i].key == es[i].bar.date
  {
    if i > 0 {
      DatesAsKeysAt(es[1..], i - 1);
    }
  }

  /** The bars of the items, in list order (`list(d.values())`). */
  function Values(es: seq<Entry>): (bs: seq<Bar>)
    ensures |bs| == |es| && forall i :: 0 <= i < |es| ==> bs[i] == es[i].bar
  {
    seq(|es|, i requires 0 <= i < |es| => es[i].bar)
  }

  /** `fetched_data[name]` on a defaultdict: the stored items, or none yet. */
  function SeriesOf(store: map<string, seq<Entry>>, name: string): seq<Entry>
  {
    if name in store then store[name] else []
  }

  lemma {:induction false} InMap(es: seq<Entry>, k: string)
    ensures k in ToMap(es) <==> exists i :: 0 <= i < |es| && es[i].key == k
  {
    if es != [] {
      InMap(es[1..], k);
      if k in ToMap(es[1..]) {
        var i :| 0 <= i < |es[1..]| && es[1..][i].key == k;
        assert es[i + 1].key == k;
      }
      if exists i :: 0 <= i < |es| && es[i].key == k {
        var i :| 0 <= i < |es| && es[i].key == k;
        if i > 0 {
          assert es[1..][i - 1].key == k;
        }
      }
    }
  }

  lemma {:induction false} MapAt(es: seq<Entry>, i: int)
    requires UniqueKeys(es) && 0 <= i < |es|
    ensures es[i].key in ToMap(es) && ToMap(es)[es[i].key] == es[i].bar
  {
    if i > 0 {
      MapAt(es[1..], i - 1);
    }
  }

  // ---------------------------------------------------------------- storing

  /**
   * `d[k] = b` on an insertion-ordered dict: an existing key keeps its
   * place and gets the new bar, a new key goes last.
   */
  function Put(es: seq<Entry>, k: string, b: Bar): seq<Entry>
  {
    if es == [] then [Entry(k, b)]
    else if es[0].key == k then [Entry(k, b)] + es[1..]
    else [es[0]] + Put(es[1..], k, b)
  }

  /** Storing overwrites exactly one key; it appends only when the key is new. */
  lemma {:induction false} PutSpec(es: seq<Entry>, k: string, b: Bar)
    requires UniqueKeys(es)
    ensures UniqueKeys(Put(es, k, b))
    ensures ToMap(Put(es, k, b)) == ToMap(es)[k := b]
    ensures k !in ToMap(es) ==> Put(es, k, b) == es + [Entry(k, b)]
    ensures k in ToMap(es) ==> |Put(es, k, b)| == |es|
  {
    var r := Put(es, k, b);
    if es == [] {
      assert r[1..] == [];
    } else if es[0].key == k {
      assert r[1..] == es[1..];
    } else {
      PutSpec(es[1..], k, b);
      assert r[1..] == Put(es[1..], k, b);
      assert ToMap(es[1..])[k := b][es[0].key := es[0].bar]
          == ToMap(es[1..])[es[0].key := es[0].bar][k := b];
      assert es == [es[0]] + es[1..];
    }
  }

  /** Overwriting an existing date keeps every item in its place and replaces only that date's bar. */
  lemma {:induction false} PutKeepsPlace(es: seq<Entry>, k: string, b: Bar)
    requires UniqueKeys(es) && k in ToMap(es)
    ensures |Put(es, k, b)| == |es|
    ensures forall i :: 0 <= i < |es| ==> Put(es, k, b)[i] == if es[i].key == k then Entry(k, b) else es[i]
  {
    var r := Put(es, k, b);
    if es[0].key == k {
      InMap(es[1..], k);
      forall i | 0 < i < |es| ensures es[i].key != k {
        assert es[1..][i - 1] == es[i];
      }
    } else {
      PutKeepsPlace(es[1..], k, b);
      assert r == [es[0]] + Put(es[1..], k, b);
      forall i | 0 < i < |es| ensures r[i] == if es[i].key == k then Entry(k, b) else es[i] {
        assert r[i] == Put(es[1..], k, b)[i - 1] && es[i] == es[1..][i - 1];
      }
    }
  }

  /** Storing a bar keeps every item stored under its bar's date. */
  lemma {:induction false} PutKeepsDates(es: seq<Entry>, b: Bar)
    requires DatesAsKeys(es)
    ensures DatesAsKeys(Put(es, b.date, b))
  {
    var r := Put(es, b.date, b);
    if es == [] {
      assert r[1..] == [];
    } else if es[0].key == b.date {
      assert r[1..] == es[1..];
    } else {
      PutKeepsDates(es[1..], b);
      assert r[1..] == Put(es[1..], b.date, b);
    }
  }

  /** Re-delivering the same bar leaves the dict as it was after the first delivery. */
  lemma {:induction false} PutIdempotent(es: seq<Entry>, k: string, b: Bar)
    ensures Put(Put(es, k, b), k, b) == Put(es, k, b)
  {
    if es != [] && es[0].key != k {
      PutIdempotent(es[1..], k, b);
      var r := Put(es, k, b);
      assert r[0] == es[0] && r[1..] == Put(es[1..], k, b);
    }
  }

  // --------------------------------------------------------------- delivery

  /** The dict after the bars `d` arrive in that order, each stored under its own date. */
  function Deliver(es: seq<Entry>, d: seq<Bar>): seq<Entry>
    decreases |d|
  {
    if d == [] then es else Deliver(Put(es, d[0].date, d[0]), d[1..])
  }

  /** The date-to-bar mapping a delivery sequence establishes; a later bar for a date wins. */
  ghost function Delivered(d: seq<Bar>): map<string, Bar>
  {
    if d == [] then map[] else map[d[0].date := d[0]] + Delivered(d[1..])
  }

  lemma UpdateThenUnion(m: map<string, Bar>, k: string, v: Bar, rest: map<string, Bar>)
    ensures m[k := v] + rest == m + (map[k := v] + rest)
  {
  }

  /** After a run of deliveries, the store is the old one overridden by what was delivered. */
  lemma {:induction false} DeliverSpec(es: seq<Entry>, d: seq<Bar>)
    requires UniqueKeys(es)
    ensures UniqueKeys(Deliver(es, d))
    ensures ToMap(Deliver(es, d)) == ToMap(es) + Delivered(d)
    decreases |d|
  {
    if d != [] {
      var es' := Put(es, d[0].date, d[0]);
      PutSpec(es, d[0].date, d[0]);
      DeliverSpec(es', d[1..]);
      assert Deliver(es, d) == Deliver(es', d[1..]);
      assert Delivered(d) == map[d[0].date := d[0]] + Delivered(d[1..]);
      UpdateThenUnion(ToMap(es), d[0].date, d[0], Delivered(d[1..]));
    }
  }

  /** No two different bars in the delivery share a date (re-deliveries of one bar are allowed). */
  ghost predicate Consistent(d: seq<Bar>)
  {
    forall i, j :: 0 <= i < |d| && 0 <= j < |d| && d[i].date == d[j].date ==> d[i] == d[j]
  }

  lemma {:induction false} DeliveredOf(d: seq<Bar>)
    requires Consistent(d)
    ensures forall i :: 0 <= i < |d| ==> d[i].date in Delivered(d) && Delivered(d)[d[i].date] == d[i]
    ensures forall k :: k in Delivered(d) ==> exists i :: 0 <= i < |d| && d[i].date == k
  {
    if d != [] {
      DeliveredOf(d[1..]);
      forall i | 0 <= i < |d| ensures d[i].date in Delivered(d) && Delivered(d)[d[i].date] == d[i] {
        if i > 0 {
          assert d[1..][i - 1] == d[i];
        }
        if d[i].date in Delivered(d[1..]) {
          var j :| 0 <= j < |d[1..]| && d[1..][j].date == d[i].date;
          assert d[j + 1].date == d[i].date;
        }
      }
      forall k | k in Delivered(d) ensures exists i :: 0 <= i < |d| && d[i].date == k {
        if k != d[0].date {
          var j :| 0 <= j < |d[1..]| && d[1..][j].date == k;
          assert d[j + 1].date == k;
        }
      }
    }
  }

  /** Two sequences with the same multiset have the same members. */
  lemma SameMembers(d1: seq<Bar>, d2: seq<Bar>)
    requires multiset(d1) == multiset(d2)
    ensures forall b :: b in d1 <==> b in d2
  {
    forall b ensures b in d1 <==> b in d2 {
      assert b in d1 <==> b in multiset(d1);
      assert b in d2 <==> b in multiset(d2);
    }
  }

  /** Consistency depends only on which bars occur. */
  lemma ConsistentOfSameMembers(d1: seq<Bar>, d2: seq<Bar>)
    requires Consistent(d1) && forall b :: b in d1 <==> b in d2
    ensures Consistent(d2)
  {
    forall i, j | 0 <= i < |d2| && 0 <= j < |d2| && d2[i].date == d2[j].date ensures d2[i] == d2[j] {
      assert d2[i] in d1 && d2[j] in d1;
      var a :| 0 <= a < |d1| && d1[a] == d2[i];
      var c :| 0 <= c < |d1| && d1[c] == d2[j];
    }
  }

  /** A date delivered by `d1` is delivered by `d2` with the same bar when both hold the same bars. */
  lemma DeliveredAgree(d1: seq<Bar>, d2: seq<Bar>, k: string)
    requires Consistent(d1) && Consistent(d2) && forall b :: b in d1 ==> b in d2
    requires k in Delivered(d1)
    ensures k in Delivered(d2) && Delivered(d2)[k] == Delivered(d1)[k]
  {
    DeliveredOf(d1);
    DeliveredOf(d2);
    var i :| 0 <= i < |d1| && d1[i].date == k;
    assert d1[i] in d2;
    var j :| 0 <= j < |d2| && d2[j] == d1[i];
  }

  /** When no two different bars share a date, delivering them in any order establishes the same mapping. */
  lemma DeliveredPermutation(d1: seq<Bar>, d2: seq<Bar>)
    requires Consistent(d1) && multiset(d1) == multiset(d2)
    ensures Delivered(d1) == Delivered(d2)
  {
    SameMembers(d1, d2);
    ConsistentOfSameMembers(d1, d2);
    forall k ensures (k in Delivered(d1) <==> k in Delivered(d2)) &&
                     (k in Delivered(d1) ==> Delivered(d1)[k] == Delivered(d2)[k]) {
      if k in Delivered(d1) {
        DeliveredAgree(d1, d2, k);
      }
      if k in Delivered(d2) {
        DeliveredAgree(d2, d1, k);
      }
    }
  }

  // ---------------------------------------------------------------- sorting

  /** The key at `i` comes before the key at `j`. */
  predicate KeyLt(es: seq<Entry>, i: int, j: int)
    requires 0 <= i < |es| && 0 <= j < |es|
  {
    StrLt(es[i].key, es[j].key)
  }

  /** The date keys strictly increase along the list. */
  predicate StrictlyAscending(es: seq<Entry>)
  {
    forall i, j :: 0 <= i < j < |es| ==> KeyLt(es, i, j)
  }

  lemma AscendingTail(es: seq<Entry>)
    requires StrictlyAscending(es) && es != []
    ensures StrictlyAscending(es[1..])
  {
    var t := es[1..];
    forall i, j | 0 <= i < j < |t| ensures KeyLt(t, i, j) {
      assert KeyLt(es, i + 1, j + 1);
    }
  }

  lemma {:induction false} AscendingHasUniqueKeys(es: seq<Entry>)
    requires StrictlyAscending(es)
    ensures UniqueKeys(es)
  {
    if es != [] {
      AscendingTail(es);
      AscendingHasUniqueKeys(es[1..]);
      forall i | 0 <= i < |es[1..]| ensures es[1..][i].key != es[0].key {
        StrLtIrreflexive(es[0].key);
        assert KeyLt(es, 0, i + 1);
      }
      InMap(es[1..], es[0].key);
    }
  }

  /** In an ascending list the first key is the least key present. */
  lemma FirstIsLeast(es: seq<Entry>, k: string)
    requires StrictlyAscending(es) && k in ToMap(es)
    ensures k == es[0].key || StrLt(es[0].key, k)
  {
    InMap(es, k);
    var i :| 0 <= i < |es| && es[i].key == k;
    if i > 0 {
      assert KeyLt(es, 0, i);
    }
  }

  /** In an ascending list the last key is the greatest key present. */
  lemma LastIsGreatest(es: seq<Entry>, k: string)
    requires StrictlyAscending(es) && k in ToMap(es)
    ensures k == es[|es| - 1].key || StrLt(k, es[|es| - 1].key)
  {
    InMap(es, k);
    var i :| 0 <= i < |es| && es[i].key == k;
    if i < |es| - 1 {
      assert KeyLt(es, i, |es| - 1);
    }
  }

  /** Places `e` after the items whose keys do not exceed its key. */
  function Insert(e: Entry, s: seq<Entry>): (r: seq<Entry>)
    ensures multiset(r) == multiset(s) + multiset{e} && |r| == |s| + 1
  {
    if s == [] then [e]
    else if StrLt(e.key, s[0].key) then [e] + s
    else
      assert s == [s[0]] + s[1..];
      [s[0]] + Insert(e, s[1..])
  }

  /** Inserting a key below the whole list puts it in front. */
  lemma InsertInFront(e: Entry, s: seq<Entry>)
    requires StrictlyAscending(s) && s != [] && StrLt(e.key, s[0].key)
    ensures StrictlyAscending([e] + s)
  {
    var r := [e] + s;
    forall i, j | 0 <= i < j < |r| ensures KeyLt(r, i, j) {
      if i == 0 {
        if j > 1 {
          assert KeyLt(s, 0, j - 1);
          StrLtTransitive(e.key, s[0].key, s[j - 1].key);
        }
      } else {
        assert KeyLt(s, i - 1, j - 1);
      }
    }
  }

  /** Inserting a key above the head keeps the head in front of the rest. */
  lemma InsertBehindHead(e: Entry, s: seq<Entry>, t: seq<Entry>)
    requires StrictlyAscending(s) && s != [] && StrLt(s[0].key, e.key)
    requires StrictlyAscending(t) && multiset(t) == multiset(s[1..]) + multiset{e}
    ensures StrictlyAscending([s[0]] + t)
  {
    var r := [s[0]] + t;
    forall i, j | 0 <= i < j < |r| ensures KeyLt(r, i, j) {
      if i == 0 {
        assert r[j] == t[j - 1];
        assert r[j] in multiset(t);
        if r[j] != e {
          assert r[j] in multiset(s[1..]);
          var m :| 0 <= m < |s[1..]| && s[1..][m] == r[j];
          assert s[m + 1] == r[j];
          assert KeyLt(s, 0, m + 1);
        }
      } else {
        assert r[i] == t[i - 1] && r[j] == t[j - 1];
        assert KeyLt(t, i - 1, j - 1);
      }
    }
  }

  lemma ConsToMap(x: Entry, t: seq<Entry>, m: map<string, Bar>, k: string, v: Bar)
    requires ToMap(t) == m[k := v] && x.key != k
    ensures ToMap([x] + t) == m[x.key := x.bar][k := v]
  {
    assert ([x] + t)[1..] == t;
    assert m[k := v][x.key := x.bar] == m[x.key := x.bar][k := v];
  }

  /** Inserting a new key adds exactly that key to the mapping. */
  lemma {:induction false} InsertToMap(e: Entry, s: seq<Entry>)
    requires e.key !in ToMap(s)
    ensures ToMap(Insert(e, s)) == ToMap(s)[e.key := e.bar]
  {
    if s == [] {
      assert Insert(e, s)[1..] == [];
    } else if StrLt(e.key, s[0].key) {
      assert ([e] + s)[1..] == s;
    } else {
      assert ToMap(s) == ToMap(s[1..])[s[0].key := s[0].bar];
      InsertToMap(e, s[1..]);
      ConsToMap(s[0], Insert(e, s[1..]), ToMap(s[1..]), e.key, e.bar);
    }
  }

  /** Inserting a new key into an ascending list keeps it ascending. */
  lemma {:induction false} InsertAscending(e: Entry, s: seq<Entry>)
    requires StrictlyAscending(s) && e.key !in ToMap(s)
    ensures StrictlyAscending(Insert(e, s))
  {
    if s != [] {
      if StrLt(e.key, s[0].key) {
        InsertInFront(e, s);
      } else {
        assert s[0].key in ToMap(s);
        StrLtTotal(e.key, s[0].key);
        assert ToMap(s) == ToMap(s[1..])[s[0].key := s[0].bar];
        AscendingTail(s);
        InsertAscending(e, s[1..]);
        InsertBehindHead(e, s, Insert(e, s[1..]));
      }
    }
  }

  /**
   * `sorted(d.items())`: the same items, as a permutation, ascending by key.
   * Written as insertion sort; the keys of a dict are distinct, so the bars
   * themselves are never compared.
   */
  function SortByKey(es: seq<Entry>): (r: seq<Entry>)
    requires UniqueKeys(es)
    ensures StrictlyAscending(r) && UniqueKeys(r)
    ensures ToMap(r) == ToMap(es) && |r| == |es|
  {
    if es == [] then []
    else
      var t := SortByKey(es[1..]);
      InsertAscending(es[0], t);
      InsertToMap(es[0], t);
      assert es == [es[0]] + es[1..];
      var r := Insert(es[0], t);
      AscendingHasUniqueKeys(r);
      r
  }

  /** The sorted items are the dict's items, rearranged. */
  lemma {:induction false} SortIsPermutation(es: seq<Entry>)
    requires UniqueKeys(es)
    ensures multiset(SortByKey(es)) == multiset(es)
  {
    if es != [] {
      SortIsPermutation(es[1..]);
      assert es == [es[0]] + es[1..];
    }
  }

  /** Two ascending lists holding the same mapping are the same list. */
  lemma {:induction false} AscendingDeterminedByMap(a: seq<Entry>, b: seq<Entry>)
    requires StrictlyAscending(a) && StrictlyAscending(b) && ToMap(a) == ToMap(b)
    ensures a == b
  {
    assert a != [] ==> a[0].key in ToMap(a);
    assert b != [] ==> b[0].key in ToMap(b);
    if a != [] && b != [] {
      FirstIsLeast(a, b[0].key);
      FirstIsLeast(b, a[0].key);
      StrLtAsymmetric(a[0].key, b[0].key);
      assert a[0] == b[0];
      AscendingHasUniqueKeys(a);
      AscendingHasUniqueKeys(b);
      assert ToMap(a[1..]) == ToMap(a) - {a[0].key};
      assert ToMap(b[1..]) == ToMap(b) - {b[0].key};
      AscendingTail(a);
      AscendingTail(b);
      AscendingDeterminedByMap(a[1..], b[1..]);
      assert a == [a[0]] + a[1..] && b == [b[0]] + b[1..];
    }
  }

  /** The sorted view depends on the key-to-bar mapping only, not on the order of the items. */
  lemma SortedViewDependsOnlyOnMap(a: seq<Entry>, b: seq<Entry>)
    requires UniqueKeys(a) && UniqueKeys(b) && ToMap(a) == ToMap(b)
    ensures SortByKey(a) == SortByKey(b)
  {
    AscendingDeterminedByMap(SortByKey(a), SortByKey(b));
  }

  /** Sorting an already sorted dict changes nothing, so sorting again is harmless. */
  lemma SortIdempotent(es: seq<Entry>)
    requires StrictlyAscending(es)
    ensures UniqueKeys(es) && SortByKey(es) == es
  {
    AscendingHasUniqueKeys(es);
    AscendingDeterminedByMap(SortByKey(es), es);
  }

  /**
   * When no two different bars share a date, the same bars delivered in any
   * two orders give the same sorted series (`LaterBarWins` shows why the
   * condition is needed).
   */
  lemma DeliveryOrderIrrelevant(es: seq<Entry>, d1: seq<Bar>, d2: seq<Bar>)
    requires UniqueKeys(es) && Consistent(d1) && multiset(d1) == multiset(d2)
    ensures UniqueKeys(Deliver(es, d1)) && UniqueKeys(Deliver(es, d2))
    ensures SortByKey(Deliver(es, d1)) == SortByKey(Deliver(es, d2))
  {
    DeliverSpec(es, d1);
    DeliverSpec(es, d2);
    DeliveredPermutation(d1, d2);
    SortedViewDependsOnlyOnMap(Deliver(es, d1), Deliver(es, d2));
  }

  /**
   * A date delivered twice keeps the later bar, so two different bars under
   * one date make arrival order visible in the sorted series.
   */
  lemma LaterBarWins(es: seq<Entry>, b1: Bar, b2: Bar)
    requires UniqueKeys(es) && b1.date == b2.date
    ensures UniqueKeys(Deliver(es, [b1, b2])) && UniqueKeys(Deliver(es, [b2, b1]))
    ensures b1.date in ToMap(Deliver(es, [b1, b2])) && ToMap(Deliver(es, [b1, b2]))[b1.date] == b2
    ensures b1 != b2 ==> SortByKey(Deliver(es, [b1, b2])) != SortByKey(Deliver(es, [b2, b1]))
  {
    var k := b1.date;
    DeliverTwo(es, b1, b2);
    DeliverTwo(es, b2, b1);
    PutSpec(es, k, b1);
    PutSpec(Put(es, k, b1), k, b2);
    PutSpec(es, k, b2);
    PutSpec(Put(es, k, b2), k, b1);
    if b1 != b2 {
      var m1 := ToMap(SortByKey(Deliver(es, [b1, b2])));
      var m2 := ToMap(SortByKey(Deliver(es, [b2, b1])));
      assert m1[k] == b2 && m2[k] == b1;
    }
  }

  /** Delivering two bars is storing one, then the other. */
  lemma DeliverTwo(es: seq<Entry>, b1: Bar, b2: Bar)
    ensures Deliver(es, [b1, b2]) == Put(Put(es, b1.date, b1), b2.date, b2)
  {
    var e1 := Put(es, b1.date, b1);
    assert [b1, b2][1..] == [b2] && [b2][1..] == [];
    assert Deliver(es, [b1, b2]) == Deliver(e1, [b2]);
    assert Deliver(e1, [b2]) == Deliver(Put(e1, b2.date, b2), []);
  }

  /** The bars of the sorted dict: the series the analyses read. */
  function OrderedSeries(es: seq<Entry>): seq<Bar>
    requires UniqueKeys(es)
  {
    Values(SortByKey(es))
  }

  lemma ValuesCons(x: Entry, t: seq<Entry>)
    ensures Values([x] + t) == [x.bar] + Values(t)
  {
    assert Values([x] + t)[1..] == Values(t);
  }

  /** Inserting an item adds exactly its bar to the bars of the list. */
  lemma {:induction false} InsertValues(e: Entry, s: seq<Entry>)
    ensures multiset(Values(Insert(e, s))) == multiset(Values(s)) + multiset{e.bar}
  {
    if s == [] {
      assert Values([e]) == [e.bar];
      assert Values(s) == [];
    } else if StrLt(e.key, s[0].key) {
      ValuesCons(e, s);
    } else {
      InsertValues(e, s[1..]);
      ValuesCons(s[0], Insert(e, s[1..]));
      ValuesCons(s[0], s[1..]);
      assert s == [s[0]] + s[1..];
    }
  }

  /** The ordered series holds exactly the dict's bars, each as often as it is stored. */
  lemma {:induction false} OrderedSeriesHoldsStoredBars(es: seq<Entry>)
    requires UniqueKeys(es)
    ensures multiset(OrderedSeries(es)) == multiset(Values(es))
  {
    if es == [] {
      assert Values(es) == [];
    } else {
      OrderedSeriesHoldsStoredBars(es[1..]);
      InsertValues(es[0], SortByKey(es[1..]));
      ValuesCons(es[0], es[1..]);
      assert es == [es[0]] + es[1..];
    }
  }

  lemma {:induction false} InsertKeepsDates(e: Entry, s: seq<Entry>)
    requires e.key == e.bar.date && DatesAsKeys(s)
    ensures DatesAsKeys(Insert(e, s))
  {
    var r := Insert(e, s);
    if s == [] {
      assert r[1..] == [];
    } else if StrLt(e.key, s[0].key) {
      assert r[1..] == s;
    } else {
      InsertKeepsDates(e, s[1..]);
      assert r[1..] == Insert(e, s[1..]);
    }
  }

  /** Sorting keeps every item stored under its own bar's date. */
  lemma {:induction false} SortKeepsDates(es: seq<Entry>)
    requires UniqueKeys(es) && DatesAsKeys(es)
    ensures DatesAsKeys(SortByKey(es))
  {
    if es != [] {
      SortKeepsDates(es[1..]);
      InsertKeepsDates(es[0], SortByKey(es[1..]));
    }
  }

  /** When every bar is stored under its own date, the ordered series is in strictly increasing date order. */
  lemma OrderedSeriesChronological(es: seq<Entry>)
    requires UniqueKeys(es) && DatesAsKeys(es)
    ensures var s := OrderedSeries(es);
      forall i, j :: 0 <= i < j < |s| ==> StrLt(s[i].date, s[j].date)
  {
    SortKeepsDates(es);
    var r := SortByKey(es);
    var s := OrderedSeries(es);
    forall i, j | 0 <= i < j < |s| ensures StrLt(s[i].date, s[j].date) {
      assert KeyLt(r, i, j);
      DatesAsKeysAt(r, i);
      DatesAsKeysAt(r, j);
    }
  }

  /**
   * `list(sorted dict.values())[-1]` with its key: the item with the
   * chronologically last date key.
   */
  function LatestEntry(es: seq<Entry>): Entry
    requires es != [] && UniqueKeys(es)
  {
    var s := SortByKey(es);
    s[|s| - 1]
  }

  /** The latest item is one of the dict's items, and every other key is an earlier date. */
  lemma LatestEntrySpec(es: seq<Entry>)
    requires es != [] && UniqueKeys(es)
    ensures var e := LatestEntry(es);
      && e.key in ToMap(es) && ToMap(es)[e.key] == e.bar
      && forall k :: k in ToMap(es) ==> k == e.key || StrLt(k, e.key)
  {
    var s := SortByKey(es);
    MapAt(s, |s| - 1);
    forall k | k in ToMap(es) ensures k == s[|s| - 1].key || StrLt(k, s[|s| - 1].key) {
      LastIsGreatest(s, k);
    }
  }
}
