/**
 * The dashboard statistics over the grocery list: the total, the items expiring within three
 * days (already expired ones included), the low-stock items, the per-category tally behind the
 * pie chart, and the two orderings in which the lists are shown. Instants are milliseconds.
 */
module Dashboard {
  import opened Http
  import opened Seqs
  import opened GroceryModel

  /** Three days in milliseconds. */
  const ExpiryWindow: int := 3 * 24 * 60 * 60 * 1000

  /** `(exp - today) / (1000 * 60 * 60 * 24) <= 3`, the division being by a positive constant. */
  predicate IsExpiringSoon(g: Grocery, now: int) {
    g.expiryDate - now <= ExpiryWindow
  }

  predicate IsLowStock(g: Grocery) {
    g.quantity <= 2
  }

  function TotalItems(items: seq<Doc<Grocery>>): (n: nat)
    ensures n == |items|
  {
    |items|
  }

  function ExpiringSoon(items: seq<Doc<Grocery>>, now: int): (r: seq<Doc<Grocery>>)
    ensures forall d :: d in r <==> d in items && IsExpiringSoon(d.body, now)
  {
    var r := Filter(items, (d: Doc<Grocery>) => IsExpiringSoon(d.body, now));
    assert forall d :: d in r ==> d in items && IsExpiringSoon(d.body, now) by {
      forall d | d in r ensures d in items && IsExpiringSoon(d.body, now) {
        var i :| 0 <= i < |r| && r[i] == d;
      }
    }
    assert forall d :: d in items && IsExpiringSoon(d.body, now) ==> d in r by {
      forall d | d in items && IsExpiringSoon(d.body, now) ensures d in r {
        var i :| 0 <= i < |items| && items[i] == d;
      }
    }
    r
  }

  function LowStock(items: seq<Doc<Grocery>>): (r: seq<Doc<Grocery>>)
    ensures forall d :: d in r <==> d in items && IsLowStock(d.body)
  {
    var r := Filter(items, (d: Doc<Grocery>) => IsLowStock(d.body));
    assert forall d :: d in r ==> d in items && IsLowStock(d.body) by {
      forall d | d in r ensures d in items && IsLowStock(d.body) {
        var i :| 0 <= i < |r| && r[i] == d;
      }
    }
    assert forall d :: d in items && IsLowStock(d.body) ==> d in r by {
      forall d | d in items && IsLowStock(d.body) ensures d in r {
        var i :| 0 <= i < |items| && items[i] == d;
      }
    }
    r
  }

  /** An item whose date has passed is still listed as expiring soon. */
  lemma ExpiredIsExpiringSoon(items: seq<Doc<Grocery>>, d: Doc<Grocery>, now: int)
    requires d in items && d.body.expiryDate <= now
    ensures d in ExpiringSoon(items, now)
  {
  }

  /** The expiring list as shown: soonest first. */
  function ExpiringSoonByDate(items: seq<Doc<Grocery>>, now: int): (r: seq<Doc<Grocery>>)
    ensures SortedBy(r, (d: Doc<Grocery>) => d.body.expiryDate)
    ensures multiset(r) == multiset(ExpiringSoon(items, now))
  {
    SortBy(ExpiringSoon(items, now), (d: Doc<Grocery>) => d.body.expiryDate)
  }

  /** The low-stock list as shown: smallest quantity first. */
  function LowStockByQuantity(items: seq<Doc<Grocery>>): (r: seq<Doc<Grocery>>)
    ensures SortedBy(r, (d: Doc<Grocery>) => d.body.quantity)
    ensures multiset(r) == multiset(LowStock(items))
  {
    SortBy(LowStock(items), (d: Doc<Grocery>) => d.body.quantity)
  }

  /** How many items carry category `c`. */
  function Count(items: seq<Doc<Grocery>>, c: string): nat
  {
    if items == [] then 0
    else Count(items[..|items| - 1], c) + (if items[|items| - 1].body.category == c then 1 else 0)
  }

  /** The categories in order of first appearance, each once: the key order of the tally object. */
  function DistinctCategories(items: seq<Doc<Grocery>>): seq<string>
  {
    if items == [] then []
    else
      var before := DistinctCategories(items[..|items| - 1]);
      var c := items[|items| - 1].body.category;
      if c in before then before else before + [c]
  }

  /** The tally the dashboard's `reduce` builds: a count for every category that occurs. */
  function CategoryCounts(items: seq<Doc<Grocery>>): map<string, nat>
  {
    map c | c in DistinctCategories(items) :: Count(items, c)
  }

  /** A category is listed exactly when some item has it, and then it has a positive count. */
  lemma {:induction false} DistinctCategoriesMembership(items: seq<Doc<Grocery>>, c: string)
    ensures c in DistinctCategories(items) <==> exists i :: 0 <= i < |items| && items[i].body.category == c
    ensures c in DistinctCategories(items) <==> Count(items, c) > 0
  {
    if items != [] {
      var init := items[..|items| - 1];
      DistinctCategoriesMembership(init, c);
      if c in DistinctCategories(items) && c !in DistinctCategories(init) {
        assert items[|items| - 1].body.category == c;
      }
      forall i | 0 <= i < |init| ensures init[i] == items[i] { }
      if exists i :: 0 <= i < |items| && items[i].body.category == c {
        var i :| 0 <= i < |items| && items[i].body.category == c;
        if i < |init| {
          assert init[i].body.category == c;
        }
      }
    }
  }

  /** Each category is listed once. */
  lemma {:induction false} DistinctCategoriesUnique(items: seq<Doc<Grocery>>)
    ensures forall i, j :: 0 <= i < j < |DistinctCategories(items)| ==> DistinctCategories(items)[i] != DistinctCategories(items)[j]
  {
    if items != [] {
      DistinctCategoriesUnique(items[..|items| - 1]);
    }
  }

  /** `Object.keys(categoryData).map(key => ({ name: key, value: categoryData[key] }))`. */
  datatype ChartEntry = ChartEntry(name: string, value: nat)

  function ChartData(keys: seq<string>, counts: map<string, nat>): (r: seq<ChartEntry>)
    requires forall i :: 0 <= i < |keys| ==> keys[i] in counts
    ensures |r| == |keys|
    ensures forall i :: 0 <= i < |keys| ==> r[i] == ChartEntry(keys[i], counts[keys[i]])
  {
    seq(|keys|, i requires 0 <= i < |keys| => ChartEntry(keys[i], counts[keys[i]]))
  }

  /**
   * The `reduce` over the items: `acc[item.category] = (acc[item.category] || 0) + 1`. The
   * accumulator object is its key order plus its key-to-count map.
   */
  method TallyCategories(items: seq<Doc<Grocery>>) returns (keys: seq<string>, counts: map<string, nat>)
    ensures keys == DistinctCategories(items)
    ensures counts == CategoryCounts(items)
  {
    keys, counts := [], map[];
    var i := 0;
    while i < |items|
      invariant 0 <= i <= |items|
      invariant keys == DistinctCategories(items[..i])
      invariant counts == CategoryCounts(items[..i])
    {
      var c := items[i].body.category;
      TallyStep(items[..i + 1]);
      assert items[..i + 1][..i] == items[..i];
      if c !in counts {
        keys := keys + [c];
        counts := counts[c := 1];
      } else {
        counts := counts[c := counts[c] + 1];
      }
      i := i + 1;
    }
    assert items[..i] == items;
  }

  /** One more item: its category is added to the keys if new, and its count goes up by one. */
  lemma TallyStep(items: seq<Doc<Grocery>>)
    requires items != []
    ensures
      var init := items[..|items| - 1];
      var c := items[|items| - 1].body.category;
      && (c in CategoryCounts(init) ==>
            DistinctCategories(items) == DistinctCategories(init)
            && CategoryCounts(items) == CategoryCounts(init)[c := CategoryCounts(init)[c] + 1])
      && (c !in CategoryCounts(init) ==>
            DistinctCategories(items) == DistinctCategories(init) + [c]
            && CategoryCounts(items) == CategoryCounts(init)[c := 1])
  {
    var init := items[..|items| - 1];
    var c := items[|items| - 1].body.category;
    forall k | k in DistinctCategories(init)
      ensures Count(items, k) == Count(init, k) + (if k == c then 1 else 0)
    {
    }
    if c !in CategoryCounts(init) {
      DistinctCategoriesMembership(init, c);
    }
  }

  /** The sum of the counts of `keys`. */
  function SumCounts(keys: seq<string>, items: seq<Doc<Grocery>>): nat
  {
    if keys == [] then 0 else SumCounts(keys[..|keys| - 1], items) + Count(items, keys[|keys| - 1])
  }

  /** The sum of the chart's values. */
  function SumValues(chart: seq<ChartEntry>): nat
  {
    if chart == [] then 0 else SumValues(chart[..|chart| - 1]) + chart[|chart| - 1].value
  }

  /** One more item raises the sum over distinct keys by one exactly when its category is among them. */
  lemma {:induction false} SumCountsSnoc(keys: seq<string>, items: seq<Doc<Grocery>>, d: Doc<Grocery>)
    requires forall i, j :: 0 <= i < j < |keys| ==> keys[i] != keys[j]
    ensures SumCounts(keys, items + [d]) == SumCounts(keys, items) + (if d.body.category in keys then 1 else 0)
  {
    assert (items + [d])[..|items|] == items;
    if keys != [] {
      var init := keys[..|keys| - 1];
      SumCountsSnoc(init, items, d);
      assert keys == init + [keys[|keys| - 1]];
    }
  }

  /** The per-category counts add up to the number of items. */
  lemma {:induction false} CountsSumToTotal(items: seq<Doc<Grocery>>)
    ensures SumCounts(DistinctCategories(items), items) == TotalItems(items)
  {
    if items != [] {
      var init := items[..|items| - 1];
      var d := items[|items| - 1];
      var before := DistinctCategories(init);
      assert items == init + [d];
      CountsSumToTotal(init);
      DistinctCategoriesUnique(init);
      SumCountsSnoc(before, init, d);
      if d.body.category !in before {
        DistinctCategoriesMembership(init, d.body.category);
        assert (before + [d.body.category])[..|before|] == before;
      }
    }
  }

  lemma {:induction false} ChartSumIsSumCounts(keys: seq<string>, items: seq<Doc<Grocery>>, counts: map<string, nat>)
    requires forall i :: 0 <= i < |keys| ==> keys[i] in counts && counts[keys[i]] == Count(items, keys[i])
    ensures SumValues(ChartData(keys, counts)) == SumCounts(keys, items)
  {
    if keys != [] {
      var init := keys[..|keys| - 1];
      ChartSumIsSumCounts(init, items, counts);
      assert ChartData(keys, counts)[..|keys| - 1] == ChartData(init, counts);
    }
  }

  /**
   * The pie chart has one entry per distinct category, each carrying that category's count,
   * and its values add up to the total.
   */
  lemma {:induction false} ChartDataIsTally(items: seq<Doc<Grocery>>)
    ensures forall i :: 0 <= i < |DistinctCategories(items)| ==> DistinctCategories(items)[i] in CategoryCounts(items)
    ensures
      var chart := ChartData(DistinctCategories(items), CategoryCounts(items));
      && (forall i :: 0 <= i < |chart| ==> chart[i].value == Count(items, chart[i].name) && chart[i].value > 0)
      && (forall i, j :: 0 <= i < j < |chart| ==> chart[i].name != chart[j].name)
      && SumValues(chart) == TotalItems(items)
  {
    var keys := DistinctCategories(items);
    forall i | 0 <= i < |keys| ensures Count(items, keys[i]) > 0 {
      DistinctCategoriesMembership(items, keys[i]);
    }
    DistinctCategoriesUnique(items);
    ChartSumIsSumCounts(keys, items, CategoryCounts(items));
    CountsSumToTotal(items);
  }
}
