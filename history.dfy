/**
 * The order-history screen's list: the orders whose customer name contains the search
 * text (letter case ignored), then sorted by the chosen key with the screen's
 * comparator, as a stable insertion sort.
 */
module History {
  import opened Wrappers
  import opened Text
  import opened Js
  import opened Seqs
  import Orders

  /** The picker's sort keys; `Unsorted` stands for any other value of `sortBy`. */
  datatype SortBy = DateDesc | DateAsc | TotalHigh | TotalLow | Unsorted

  function ParseSortBy(s: string): SortBy
  {
    if s == "dateDesc" then DateDesc
    else if s == "dateAsc" then DateAsc
    else if s == "totalHigh" then TotalHigh
    else if s == "totalLow" then TotalLow
    else Unsorted
  }

  /** A missing date or total reads as `NaN`. */
  function AsNumber(x: Option<int>): Number
  {
    if x.Some? then Num(x.value) else NaN
  }

  function Minus(a: Number, b: Number): Number
  {
    if a.Num? && b.Num? then Num(a.v - b.v) else NaN
  }

  /** The screen's comparator: negative when `a` belongs before `b`. */
  function Compare(mode: SortBy, a: Orders.Order, b: Orders.Order): Number
  {
    match mode
    case DateDesc => Minus(AsNumber(b.date), AsNumber(a.date))
    case DateAsc => Minus(AsNumber(a.date), AsNumber(b.date))
    case TotalHigh => Minus(AsNumber(b.total), AsNumber(a.total))
    case TotalLow => Minus(AsNumber(a.total), AsNumber(b.total))
    case Unsorted => Num(0)
  }

  /** The sort moves `a` ahead of `b` only on a negative comparison (a `NaN` is not negative). */
  predicate Before(mode: SortBy, a: Orders.Order, b: Orders.Order)
  {
    var c := Compare(mode, a, b);
    c.Num? && c.v < 0
  }

  /** Insert `x`, which came later in the input, after every element it does not strictly precede. */
  function Insert(mode: SortBy, x: Orders.Order, s: seq<Orders.Order>): (r: seq<Orders.Order>)
    ensures multiset(r) == multiset(s) + multiset{x}
  {
    if s == [] then [x]
    else if Before(mode, x, s[0]) then [x] + s
    else
      assert s == [s[0]] + s[1..];
      [s[0]] + Insert(mode, x, s[1..])
  }

  /** Stable insertion sort under the screen's comparator. */
  function Sort(mode: SortBy, s: seq<Orders.Order>): (r: seq<Orders.Order>)
    ensures multiset(r) == multiset(s)
  {
    if s == [] then []
    else
      assert s == s[..|s| - 1] + [s[|s| - 1]];
      Insert(mode, s[|s| - 1], Sort(mode, s[..|s| - 1]))
  }

  /** Under an unrecognised key every comparison is 0, so the stable sort keeps the input order. */
  lemma {:induction false} UnsortedKeepsOrder(s: seq<Orders.Order>)
    ensures Sort(Unsorted, s) == s
  {
    if s != [] {
      var init, last := s[..|s| - 1], s[|s| - 1];
      calc {
        Sort(Unsorted, s);
        Insert(Unsorted, last, Sort(Unsorted, init));
        { UnsortedKeepsOrder(init); }
        Insert(Unsorted, last, init);
        { InsertUnsortedAppends(last, init); }
        init + [last];
        { assert init + [last] == s; }
        s;
      }
    }
  }

  lemma {:induction false} InsertUnsortedAppends(x: Orders.Order, s: seq<Orders.Order>)
    ensures Insert(Unsorted, x, s) == s + [x]
  {
    if s != [] {
      InsertUnsortedAppends(x, s[1..]);
      Seqs.AppendAssoc([s[0]], s[1..], [x]);
      assert [s[0]] + s[1..] == s;
    }
  }

  /** The comparator's key is present: a date for the date orders, a total for the total orders. */
  predicate HasKey(mode: SortBy, o: Orders.Order)
  {
    match mode
    case DateDesc => o.date.Some?
    case DateAsc => o.date.Some?
    case TotalHigh => o.total.Some?
    case TotalLow => o.total.Some?
    case Unsorted => true
  }

  /** The ascending sort key the comparator amounts to: dates or totals, negated for the descending orders. */
  function Key(mode: SortBy, o: Orders.Order): int
  {
    match mode
    case DateDesc => -o.date.GetOr(0)
    case DateAsc => o.date.GetOr(0)
    case TotalHigh => -o.total.GetOr(0)
    case TotalLow => o.total.GetOr(0)
    case Unsorted => 0
  }

  predicate AllHaveKey(mode: SortBy, s: seq<Orders.Order>)
  {
    forall k :: 0 <= k < |s| ==> HasKey(mode, s[k])
  }

  /** Keys never decrease along `s`. */
  predicate SortedByKey(mode: SortBy, s: seq<Orders.Order>)
  {
    forall i, j :: 0 <= i < j < |s| ==> Key(mode, s[i]) <= Key(mode, s[j])
  }

  /** With both keys present, the comparator's "before" is exactly "smaller key". */
  lemma BeforeIsKeyLess(mode: SortBy, a: Orders.Order, b: Orders.Order)
    requires HasKey(mode, a) && HasKey(mode, b)
    ensures Before(mode, a, b) <==> Key(mode, a) < Key(mode, b)
  {
  }

  lemma SameMembers<T>(s: seq<T>, t: seq<T>)
    requires multiset(s) == multiset(t)
    ensures forall y :: y in s <==> y in t
  {
    forall y ensures y in s <==> y in t {
      assert y in s <==> y in multiset(s);
      assert y in t <==> y in multiset(t);
    }
  }

  lemma InsertMembers(mode: SortBy, x: Orders.Order, s: seq<Orders.Order>)
    ensures forall y :: y in Insert(mode, x, s) <==> y == x || y in s
  {
    SameMembers(Insert(mode, x, s), s + [x]);
  }

  predicate AtMost(mode: SortBy, k: int, s: seq<Orders.Order>)
  {
    forall y :: y in s ==> k <= Key(mode, y)
  }

  /** A sequence is sorted when its head is at most every later key and its tail is sorted. */
  lemma ConsSorted(mode: SortBy, y: Orders.Order, t: seq<Orders.Order>)
    requires AtMost(mode, Key(mode, y), t) && SortedByKey(mode, t)
    ensures SortedByKey(mode, [y] + t)
  {
    var r := [y] + t;
    forall i, j | 0 <= i < j < |r| ensures Key(mode, r[i]) <= Key(mode, r[j]) {
      assert r[j] == t[j - 1];
      if i == 0 {
        assert r[j] in t;
      } else {
        assert r[i] == t[i - 1];
      }
    }
  }

  lemma TailKeyed(mode: SortBy, s: seq<Orders.Order>)
    requires s != [] && AllHaveKey(mode, s) && SortedByKey(mode, s)
    ensures AllHaveKey(mode, s[1..]) && SortedByKey(mode, s[1..])
    ensures AtMost(mode, Key(mode, s[0]), s[1..])
  {
    forall k | 0 <= k < |s[1..]| ensures HasKey(mode, s[1..][k]) {
      assert s[1..][k] == s[k + 1];
    }
    forall y | y in s[1..] ensures Key(mode, s[0]) <= Key(mode, y) {
      var k :| 0 <= k < |s[1..]| && s[1..][k] == y;
      assert s[k + 1] == y;
    }
  }

  /** Inserting into a sorted sequence keeps it sorted when all keys exist. */
  lemma {:induction false} InsertSorted(mode: SortBy, x: Orders.Order, s: seq<Orders.Order>)
    requires HasKey(mode, x) && AllHaveKey(mode, s) && SortedByKey(mode, s)
    ensures SortedByKey(mode, Insert(mode, x, s))
  {
    if s == [] {
    } else if Before(mode, x, s[0]) {
      assert s[0] in s;
      BeforeIsKeyLess(mode, x, s[0]);
      TailKeyed(mode, s);
      ConsSorted(mode, x, s);
    } else {
      assert s[0] in s;
      BeforeIsKeyLess(mode, x, s[0]);
      TailKeyed(mode, s);
      InsertSorted(mode, x, s[1..]);
      InsertMembers(mode, x, s[1..]);
      ConsSorted(mode, s[0], Insert(mode, x, s[1..]));
    }
  }

  /** Sorting orders that all carry the key yields keys in non-decreasing order. */
  lemma {:induction false} SortSorted(mode: SortBy, s: seq<Orders.Order>)
    requires AllHaveKey(mode, s)
    ensures SortedByKey(mode, Sort(mode, s))
  {
    if s != [] {
      var init := s[..|s| - 1];
      assert AllHaveKey(mode, init) by {
        forall k | 0 <= k < |init| ensures HasKey(mode, init[k]) {
          assert init[k] == s[k];
        }
      }
      SortSorted(mode, init);
      var t := Sort(mode, init);
      assert AllHaveKey(mode, t) by {
        SameMembers(t, init);
        forall k | 0 <= k < |t| ensures HasKey(mode, t[k]) {
          assert t[k] in init;
        }
      }
      assert HasKey(mode, s[|s| - 1]);
      InsertSorted(mode, s[|s| - 1], t);
    }
  }

  /** The test "the key is `k`", as a predicate for `Filter`. */
  function KeyIs(mode: SortBy, k: int): Orders.Order -> bool
  {
    o => Key(mode, o) == k
  }


  /** Inserting `x` puts it after every order with its key, so it joins the end of its key's class. */
  lemma {:induction false} InsertKeepsTies(mode: SortBy, x: Orders.Order, t: seq<Orders.Order>, k: int)
    requires HasKey(mode, x) && AllHaveKey(mode, t) && SortedByKey(mode, t)
    ensures Filter(KeyIs(mode, k), Insert(mode, x, t))
            == Filter(KeyIs(mode, k), t) + (if Key(mode, x) == k then [x] else [])
  {
    if t == [] {
      assert Insert(mode, x, t) == [x];
      FilterSingle(KeyIs(mode, k), x);
    } else {
      assert t[0] in t;
      BeforeIsKeyLess(mode, x, t[0]);
      if Before(mode, x, t[0]) {
        InsertFrontKeepsTies(mode, x, t, k);
      } else {
        TailKeyed(mode, t);
        InsertKeepsTies(mode, x, t[1..], k);
        InsertPastKeepsTies(mode, x, t, k);
      }
    }
  }

  /** `x` goes in front of a list whose keys all exceed its own: no order of its class follows it. */
  lemma InsertFrontKeepsTies(mode: SortBy, x: Orders.Order, t: seq<Orders.Order>, k: int)
    requires t != [] && SortedByKey(mode, t) && Key(mode, x) < Key(mode, t[0])
    ensures Filter(KeyIs(mode, k), [x] + t)
            == Filter(KeyIs(mode, k), t) + (if Key(mode, x) == k then [x] else [])
  {
    var f := KeyIs(mode, k);
    FilterCons(f, x, t);
    if Key(mode, x) == k {
      KeysAbove(mode, t, k);
      FilterDropsAll(f, t);
      assert Filter(f, [x] + t) == [x];
    } else {
      assert !f(x);
    }
  }

  /** Every key of a sorted list is at least its first key. */
  lemma KeysAbove(mode: SortBy, t: seq<Orders.Order>, k: int)
    requires t != [] && SortedByKey(mode, t) && k < Key(mode, t[0])
    ensures forall y :: y in t ==> !KeyIs(mode, k)(y)
  {
    forall y | y in t ensures Key(mode, y) != k {
      var i :| 0 <= i < |t| && t[i] == y;
      assert Key(mode, t[0]) <= Key(mode, t[i]);
    }
  }

  /** Stepping past the head keeps the head in front of the rest of its class. */
  lemma InsertPastKeepsTies(mode: SortBy, x: Orders.Order, t: seq<Orders.Order>, k: int)
    requires t != [] && !Before(mode, x, t[0])
    requires Filter(KeyIs(mode, k), Insert(mode, x, t[1..]))
             == Filter(KeyIs(mode, k), t[1..]) + (if Key(mode, x) == k then [x] else [])
    ensures Filter(KeyIs(mode, k), Insert(mode, x, t))
            == Filter(KeyIs(mode, k), t) + (if Key(mode, x) == k then [x] else [])
  {
    SplitFirst(t);
    FilterConsEq(KeyIs(mode, k), t[0], Insert(mode, x, t[1..]), t[1..],
                 if Key(mode, x) == k then [x] else []);
  }

  /** The sorted prefix of a keyed sequence is keyed and sorted. */
  lemma SortInitKeyed(mode: SortBy, s: seq<Orders.Order>)
    requires s != [] && AllHaveKey(mode, s)
    ensures AllHaveKey(mode, s[..|s| - 1]) && HasKey(mode, s[|s| - 1])
    ensures AllHaveKey(mode, Sort(mode, s[..|s| - 1]))
  {
    var init := s[..|s| - 1];
    forall k | 0 <= k < |init| ensures HasKey(mode, init[k]) {
      assert init[k] == s[k];
    }
    var t := Sort(mode, init);
    SameMembers(t, init);
    forall k | 0 <= k < |t| ensures HasKey(mode, t[k]) {
      assert t[k] in init;
      var j :| 0 <= j < |init| && init[j] == t[k];
    }
  }

  /**
   * The sort is stable: when every order carries the key, the orders sharing any one
   * key value come out in their input order.
   */
  lemma {:induction false} SortKeepsTies(mode: SortBy, s: seq<Orders.Order>, k: int)
    requires AllHaveKey(mode, s)
    ensures Filter(KeyIs(mode, k), Sort(mode, s)) == Filter(KeyIs(mode, k), s)
  {
    if s != [] {
      var init, last := s[..|s| - 1], s[|s| - 1];
      var f := KeyIs(mode, k);
      SplitLast(s);
      SortInitKeyed(mode, s);
      SortKeepsTies(mode, init, k);
      SortSorted(mode, init);
      InsertKeepsTies(mode, last, Sort(mode, init), k);
      assert Sort(mode, s) == Insert(mode, last, Sort(mode, init));
      FilterSnocEq(f, Sort(mode, s), init, last);
    }
  }

  predicate CustomerMatches(search: string, o: Orders.Order)
  {
    Contains(ToLower(o.customerName), ToLower(search))
  }

  /** `filteredOrders`: the orders whose customer name matches the search, sorted by `sortBy`. */
  function FilteredOrders(orders: seq<Orders.Order>, search: string, sortBy: string): (r: seq<Orders.Order>)
    ensures multiset(r) == multiset(Filter(o => CustomerMatches(search, o), orders))
    ensures forall o :: o in r <==> o in orders && Contains(ToLower(o.customerName), ToLower(search))
  {
    var kept := Filter(o => CustomerMatches(search, o), orders);
    var r := Sort(ParseSortBy(sortBy), kept);
    SameMembers(r, kept);
    r
  }

  /** An empty search lists every order. */
  lemma EmptySearchKeepsAll(orders: seq<Orders.Order>, sortBy: string)
    ensures multiset(FilteredOrders(orders, "", sortBy)) == multiset(orders)
    ensures ParseSortBy(sortBy) == Unsorted ==> FilteredOrders(orders, "", sortBy) == orders
  {
    forall o | o in orders ensures CustomerMatches("", o) {
      ContainsEmpty(ToLower(o.customerName));
    }
    FilterKeepsAll(o => CustomerMatches("", o), orders);
    if ParseSortBy(sortBy) == Unsorted {
      UnsortedKeepsOrder(orders);
    }
  }

  /** Under a recognised key, the listed orders come out sorted by that key when every order carries it. */
  lemma FilteredSorted(mode: SortBy, orders: seq<Orders.Order>, search: string, sortBy: string)
    requires ParseSortBy(sortBy) == mode
    requires forall o :: o in orders ==> HasKey(mode, o)
    ensures var r := FilteredOrders(orders, search, sortBy);
            SortedByKey(mode, r) && AllHaveKey(mode, r)
  {
    var kept := Filter(o => CustomerMatches(search, o), orders);
    assert AllHaveKey(mode, kept) by {
      forall k | 0 <= k < |kept| ensures HasKey(mode, kept[k]) {
        assert kept[k] in kept;
      }
    }
    SortSorted(mode, kept);
    var r := FilteredOrders(orders, search, sortBy);
    assert r == Sort(mode, kept);
    forall k | 0 <= k < |r| ensures HasKey(mode, r[k]) {
      assert r[k] in r;
    }
  }

  /** Newest first: with every order dated, the dates never increase down the list. */
  lemma DateDescNewestFirst(orders: seq<Orders.Order>, search: string)
    requires forall o :: o in orders ==> o.date.Some?
    ensures var r := FilteredOrders(orders, search, "dateDesc");
            forall i, j :: 0 <= i < j < |r| ==> r[i].date.value >= r[j].date.value
  {
    FilteredSorted(DateDesc, orders, search, "dateDesc");
    var r := FilteredOrders(orders, search, "dateDesc");
    forall i, j | 0 <= i < j < |r| ensures r[i].date.value >= r[j].date.value {
      assert HasKey(DateDesc, r[i]) && HasKey(DateDesc, r[j]);
      assert Key(DateDesc, r[i]) <= Key(DateDesc, r[j]);
    }
  }

  /** Oldest first: the dates never decrease down the list. */
  lemma DateAscOldestFirst(orders: seq<Orders.Order>, search: string)
    requires forall o :: o in orders ==> o.date.Some?
    ensures var r := FilteredOrders(orders, search, "dateAsc");
            forall i, j :: 0 <= i < j < |r| ==> r[i].date.value <= r[j].date.value
  {
    FilteredSorted(DateAsc, orders, search, "dateAsc");
    var r := FilteredOrders(orders, search, "dateAsc");
    forall i, j | 0 <= i < j < |r| ensures r[i].date.value <= r[j].date.value {
      assert HasKey(DateAsc, r[i]) && HasKey(DateAsc, r[j]);
      assert Key(DateAsc, r[i]) <= Key(DateAsc, r[j]);
    }
  }

  /** Highest total first: the totals never increase down the list. */
  lemma TotalHighFirst(orders: seq<Orders.Order>, search: string)
    requires forall o :: o in orders ==> o.total.Some?
    ensures var r := FilteredOrders(orders, search, "totalHigh");
            forall i, j :: 0 <= i < j < |r| ==> r[i].total.value >= r[j].total.value
  {
    FilteredSorted(TotalHigh, orders, search, "totalHigh");
    var r := FilteredOrders(orders, search, "totalHigh");
    forall i, j | 0 <= i < j < |r| ensures r[i].total.value >= r[j].total.value {
      assert HasKey(TotalHigh, r[i]) && HasKey(TotalHigh, r[j]);
      assert Key(TotalHigh, r[i]) <= Key(TotalHigh, r[j]);
    }
  }

  /** Lowest total first: the totals never decrease down the list. */
  lemma TotalLowFirst(orders: seq<Orders.Order>, search: string)
    requires forall o :: o in orders ==> o.total.Some?
    ensures var r := FilteredOrders(orders, search, "totalLow");
            forall i, j :: 0 <= i < j < |r| ==> r[i].total.value <= r[j].total.value
  {
    FilteredSorted(TotalLow, orders, search, "totalLow");
    var r := FilteredOrders(orders, search, "totalLow");
    forall i, j | 0 <= i < j < |r| ensures r[i].total.value <= r[j].total.value {
      assert HasKey(TotalLow, r[i]) && HasKey(TotalLow, r[j]);
      assert Key(TotalLow, r[i]) <= Key(TotalLow, r[j]);
    }
  }
}
