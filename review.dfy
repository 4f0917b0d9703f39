/**
 * The review list: the catalog items whose id is checked in the stored
 * `checkedWords` map, in catalog order, plus per-category counters.
 */
module Review {
  import opened Wrappers
  import opened Catalog
  import opened Storage

  /** `{ total, checked }` for one category. */
  datatype Stat = Stat(total: nat, checked: nat)

  /**
   * `filterCheckedContent`: exactly the items whose id reads as checked, in
   * catalog order; ids mapped to false are left out like absent ones.
   */
  function FilterChecked(catalog: seq<Item>, checked: map<int, bool>): (r: seq<Item>)
    ensures forall x :: x in r <==> x in catalog && IsChecked(checked, x.id)
    ensures forall x :: multiset(r)[x] == if IsChecked(checked, x.id) then multiset(catalog)[x] else 0
    ensures Subsequence(r, catalog)
  {
    if catalog == [] then []
    else
      assert catalog == [catalog[0]] + catalog[1..];
      if IsChecked(checked, catalog[0].id) then [catalog[0]] + FilterChecked(catalog[1..], checked)
      else FilterChecked(catalog[1..], checked)
  }

  /** With no catalog item checked the list is empty: the review screen's empty state. */
  lemma {:induction false} FilterNoneChecked(catalog: seq<Item>, checked: map<int, bool>)
    requires forall x :: x in catalog ==> !IsChecked(checked, x.id)
    ensures FilterChecked(catalog, checked) == []
  {
    if catalog != [] {
      assert catalog[0] in catalog;
      FilterNoneChecked(catalog[1..], checked);
    }
  }

  /** Two maps that agree on which ids are checked give the same review list. */
  lemma {:induction false} FilterRespectsChecked(catalog: seq<Item>, m1: map<int, bool>, m2: map<int, bool>)
    requires forall k :: IsChecked(m1, k) == IsChecked(m2, k)
    ensures FilterChecked(catalog, m1) == FilterChecked(catalog, m2)
  {
    if catalog != [] {
      FilterRespectsChecked(catalog[1..], m1, m2);
    }
  }

  /** Items of the category (counting from the front, as the `forEach` does). */
  function CountIn(catalog: seq<Item>, category: string): (n: nat)
    ensures n <= |catalog|
  {
    if catalog == [] then 0
    else CountIn(catalog[..|catalog| - 1], category)
         + (if catalog[|catalog| - 1].category == category then 1 else 0)
  }

  /** Items of the category whose id is checked; never more than the category holds. */
  function CountChecked(catalog: seq<Item>, checked: map<int, bool>, category: string): (n: nat)
    ensures n <= CountIn(catalog, category)
  {
    if catalog == [] then 0
    else
      var last := catalog[|catalog| - 1];
      CountChecked(catalog[..|catalog| - 1], checked, category)
      + (if last.category == category && IsChecked(checked, last.id) then 1 else 0)
  }

  /** Categories in order of first appearance: the order in which the stats record gains its keys. */
  function Categories(catalog: seq<Item>): (cats: seq<string>)
    ensures forall i, j :: 0 <= i < j < |cats| ==> cats[i] != cats[j]
  {
    if catalog == [] then []
    else
      var init := catalog[..|catalog| - 1];
      var last := catalog[|catalog| - 1];
      var cats := Categories(init);
      if last.category in cats then cats else cats + [last.category]
  }

  /** A category is listed exactly when some item of the catalog carries it. */
  lemma {:induction false} CategoriesCover(catalog: seq<Item>, c: string)
    ensures c in Categories(catalog) <==> exists x :: x in catalog && x.category == c
  {
    if catalog != [] {
      var init := catalog[..|catalog| - 1];
      var last := catalog[|catalog| - 1];
      assert catalog == init + [last];
      assert forall x :: x in catalog <==> x in init || x == last;
      CategoriesCover(init, c);
    }
  }

  /** Sum of the totals of the listed categories. */
  function SumTotals(cats: seq<string>, catalog: seq<Item>): nat
  {
    if cats == [] then 0
    else SumTotals(cats[..|cats| - 1], catalog) + CountIn(catalog, cats[|cats| - 1])
  }

  /** Number of times c is listed. */
  function Occurrences(cats: seq<string>, c: string): nat
  {
    if cats == [] then 0
    else Occurrences(cats[..|cats| - 1], c) + (if cats[|cats| - 1] == c then 1 else 0)
  }

  lemma {:induction false} OccurrencesOfDistinct(cats: seq<string>, c: string)
    requires forall i, j :: 0 <= i < j < |cats| ==> cats[i] != cats[j]
    ensures Occurrences(cats, c) == if c in cats then 1 else 0
  {
    if cats != [] {
      var init := cats[..|cats| - 1];
      assert forall i, j :: 0 <= i < j < |init| ==> init[i] != init[j] by {
        forall i, j | 0 <= i < j < |init| ensures init[i] != init[j] {
          assert init[i] == cats[i] && init[j] == cats[j];
        }
      }
      OccurrencesOfDistinct(init, c);
      assert cats == init + [cats[|cats| - 1]];
      if cats[|cats| - 1] == c {
        assert c !in init by {
          forall i | 0 <= i < |init| ensures init[i] != c {
            assert init[i] == cats[i];
          }
        }
      }
    }
  }

  /** Appending one item adds, over any list of categories, one for each listing of its category. */
  lemma {:induction false} SumTotalsSnoc(cats: seq<string>, init: seq<Item>, x: Item)
    ensures SumTotals(cats, init + [x]) == SumTotals(cats, init) + Occurrences(cats, x.category)
  {
    var catalog := init + [x];
    assert catalog[..|catalog| - 1] == init;
    if cats != [] {
      SumTotalsSnoc(cats[..|cats| - 1], init, x);
    }
  }

  lemma {:induction false} CountInAbsent(catalog: seq<Item>, c: string)
    requires c !in Categories(catalog)
    ensures CountIn(catalog, c) == 0
  {
    if catalog != [] {
      var init := catalog[..|catalog| - 1];
      CountInAbsent(init, c);
    }
  }

  /** The per-category totals add up to the size of the catalog. */
  lemma {:induction false} TotalsSumToCatalogSize(catalog: seq<Item>)
    ensures SumTotals(Categories(catalog), catalog) == |catalog|
  {
    if catalog != [] {
      var init := catalog[..|catalog| - 1];
      var x := catalog[|catalog| - 1];
      assert catalog == init + [x];
      var cats0 := Categories(init);
      TotalsSumToCatalogSize(init);
      SumTotalsSnoc(cats0, init, x);
      OccurrencesOfDistinct(cats0, x.category);
      if x.category !in cats0 {
        var cats := cats0 + [x.category];
        assert cats[..|cats| - 1] == cats0;
        CountInAbsent(init, x.category);
        assert CountIn(catalog, x.category) == 1;
      }
    }
  }

  /** Appending an item lists its category at the end, unless it is already listed. */
  lemma CategoriesSnoc(prefix: seq<Item>, x: Item)
    ensures Categories(prefix + [x])
      == if x.category in Categories(prefix) then Categories(prefix) else Categories(prefix) + [x.category]
  {
    assert (prefix + [x])[..|prefix|] == prefix;
  }

  /** Position of the first item of category c, or the catalog's length when no item has it. */
  function FirstIndex(catalog: seq<Item>, c: string): (n: nat)
    ensures n <= |catalog|
    ensures n < |catalog| ==> catalog[n].category == c
    ensures forall k :: 0 <= k < n ==> catalog[k].category != c
  {
    if catalog == [] then 0
    else if catalog[0].category == c then 0
    else 1 + FirstIndex(catalog[1..], c)
  }

  /** An item appended after the first item of c does not move it. */
  lemma FirstIndexSnoc(prefix: seq<Item>, x: Item, c: string)
    requires FirstIndex(prefix, c) < |prefix|
    ensures FirstIndex(prefix + [x], c) == FirstIndex(prefix, c)
  {
    var n, m := FirstIndex(prefix + [x], c), FirstIndex(prefix, c);
    assert (prefix + [x])[m] == prefix[m];
  }

  /** A listed category has a first item. */
  lemma FirstIndexListed(catalog: seq<Item>, c: string)
    requires c in Categories(catalog)
    ensures FirstIndex(catalog, c) < |catalog|
  {
    CategoriesCover(catalog, c);
    var x :| x in catalog && x.category == c;
    var k :| 0 <= k < |catalog| && catalog[k] == x;
  }

  /**
   * The categories come in order of their first items: a category listed
   * before another has its first item earlier in the catalog.
   */
  lemma {:induction false} CategoriesFirstSeen(catalog: seq<Item>)
    ensures forall i, j :: 0 <= i < j < |Categories(catalog)| ==>
      FirstIndex(catalog, Categories(catalog)[i]) < FirstIndex(catalog, Categories(catalog)[j])
  {
    if catalog != [] {
      var init := catalog[..|catalog| - 1];
      var x := catalog[|catalog| - 1];
      assert catalog == init + [x];
      var cats0 := Categories(init);
      CategoriesFirstSeen(init);
      CategoriesSnoc(init, x);
      forall c | c in cats0
        ensures FirstIndex(catalog, c) == FirstIndex(init, c) < |init|
      {
        FirstIndexListed(init, c);
        FirstIndexSnoc(init, x, c);
      }
      if x.category !in cats0 {
        var cats := cats0 + [x.category];
        assert FirstIndex(catalog, x.category) == |init| by {
          CategoriesCover(init, x.category);
        }
        forall i, j | 0 <= i < j < |cats|
          ensures FirstIndex(catalog, cats[i]) < FirstIndex(catalog, cats[j])
        {
          assert cats[i] == cats0[i] && cats[i] in cats0;
          if j < |cats0| {
            assert cats[j] == cats0[j] && cats[j] in cats0;
          }
        }
      }
    }
  }

  /** Appending an item adds it to its own category's counters and to no other. */
  lemma CountsSnoc(prefix: seq<Item>, x: Item, checked: map<int, bool>, c: string)
    ensures CountIn(prefix + [x], c) == CountIn(prefix, c) + (if x.category == c then 1 else 0)
    ensures CountChecked(prefix + [x], checked, c)
      == CountChecked(prefix, checked, c) + (if x.category == c && IsChecked(checked, x.id) then 1 else 0)
  {
    assert (prefix + [x])[..|prefix|] == prefix;
  }

  /** The counters after a pass over `prefix`: one entry per category seen, in first-seen order. */
  ghost predicate Tallied(prefix: seq<Item>, checked: map<int, bool>, order: seq<string>, stats: map<string, Stat>) {
    && order == Categories(prefix)
    && (forall c :: c in stats <==> c in order)
    && (forall c :: c in stats ==> stats[c] == Stat(CountIn(prefix, c), CountChecked(prefix, checked, c)))
  }

  /** Counting one more item: its category's entry, created at zero when missing, gains the item. */
  lemma TallyStep(prefix: seq<Item>, x: Item, checked: map<int, bool>,
                  order: seq<string>, stats: map<string, Stat>, prev: Stat)
    requires Tallied(prefix, checked, order, stats)
    requires prev == if x.category in stats then stats[x.category] else Stat(0, 0)
    ensures Tallied(prefix + [x], checked, if x.category in stats then order else order + [x.category],
      stats[x.category := Stat(prev.total + 1, prev.checked + if IsChecked(checked, x.id) then 1 else 0)])
  {
    if x.category !in stats {
      CountInAbsent(prefix, x.category);
    }
    CategoriesSnoc(prefix, x);
    forall c {
      CountsSnoc(prefix, x, checked, c);
    }
  }

  /**
   * `getCategoryStats`: one pass over the catalog, creating a category's
   * counters on its first item and counting totals and checked items.
   * `order` is the record's key order.
   */
  method CategoryStats(catalog: seq<Item>, checked: map<int, bool>)
    returns (order: seq<string>, stats: map<string, Stat>)
    ensures order == Categories(catalog)
    ensures forall c :: c in stats <==> c in order
    ensures forall c :: c in stats ==>
      stats[c] == Stat(CountIn(catalog, c), CountChecked(catalog, checked, c))
  {
    order := [];
    stats := map[];
    for i := 0 to |catalog|
      invariant Tallied(catalog[..i], checked, order, stats)
    {
      var item := catalog[i];
      TallyStep(catalog[..i], item, checked, order, stats,
                if item.category in stats then stats[item.category] else Stat(0, 0));
      assert catalog[..i + 1] == catalog[..i] + [item];
      if item.category !in stats {
        stats := stats[item.category := Stat(0, 0)];
        order := order + [item.category];
      }
      var stat := stats[item.category];
      stat := stat.(total := stat.total + 1);
      if IsChecked(checked, item.id) {
        stat := stat.(checked := stat.checked + 1);
      }
      stats := stats[item.category := stat];
    }
    assert catalog[..|catalog|] == catalog;
  }

  class ReviewList {
    const catalog: seq<Item>
    const store: Store
    var checkedWords: map<int, bool>
    var filtered: seq<Item>

    /** The list on screen is always the filter of the map on screen. */
    ghost predicate Valid()
      reads this
    {
      filtered == FilterChecked(catalog, checkedWords)
    }

    /** The screen's initial state: nothing checked, the empty-state message. */
    constructor (catalog: seq<Item>, store: Store)
      ensures Valid()
      ensures this.catalog == catalog && this.store == store
      ensures checkedWords == map[] && filtered == []
    {
      this.catalog := catalog;
      this.store := store;
      checkedWords := map[];
      filtered := [];
      new;
      FilterNoneChecked(catalog, map[]);
    }

    /** `loadCheckedWords`: adopts the stored map if there is one; with none the state is left as it was. */
    method LoadCheckedWords()
      requires Valid()
      modifies this`checkedWords, this`filtered
      ensures Valid()
      ensures old(store.checkedWords).None? ==> unchanged(this)
      ensures old(store.checkedWords).Some? ==> checkedWords == old(store.checkedWords).value
    {
      if store.checkedWords.Some? {
        checkedWords := store.checkedWords.value;
        filtered := FilterChecked(catalog, checkedWords);
      }
    }

    /** The checkmark on a listed word: flips its id, stores the whole map and recomputes the list. */
    method ToggleCheck(id: int)
      requires Valid()
      modifies this`checkedWords, this`filtered, store`checkedWords
      ensures Valid()
      ensures checkedWords == Flipped(old(checkedWords), id)
      ensures store.checkedWords == Some(checkedWords)
    {
      checkedWords := Flipped(checkedWords, id);
      store.checkedWords := Some(checkedWords);
      filtered := FilterChecked(catalog, checkedWords);
    }
  }

  /** Toggling the same id twice gives back the same review list and the same counters. */
  lemma ToggleTwiceSameView(catalog: seq<Item>, m: map<int, bool>, id: int)
    ensures FilterChecked(catalog, Flipped(Flipped(m, id), id)) == FilterChecked(catalog, m)
    ensures forall c :: CountChecked(catalog, Flipped(Flipped(m, id), id), c) == CountChecked(catalog, m, c)
  {
    var m2 := Flipped(Flipped(m, id), id);
    FlipTwice(m, id);
    FilterRespectsChecked(catalog, m2, m);
    forall c ensures CountChecked(catalog, m2, c) == CountChecked(catalog, m, c) {
      CountCheckedRespectsChecked(catalog, m2, m, c);
    }
  }

  lemma {:induction false} CountCheckedRespectsChecked(catalog: seq<Item>, m1: map<int, bool>, m2: map<int, bool>, c: string)
    requires forall k :: IsChecked(m1, k) == IsChecked(m2, k)
    ensures CountChecked(catalog, m1, c) == CountChecked(catalog, m2, c)
  {
    if catalog != [] {
      CountCheckedRespectsChecked(catalog[..|catalog| - 1], m1, m2, c);
    }
  }
}
