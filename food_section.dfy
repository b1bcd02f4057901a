/** The food menu's category buttons. */
module FoodSection {
  import opened Wrappers
  import opened Schema
  import Seqs

  const AllCategories: string := "all"

  /** `filteredItems`: every fetched item for 'all', otherwise the items of that
      exact category; nothing while the menu has not been fetched. */
  function FilteredItems(items: Option<seq<FoodItem>>, category: string): (r: Option<seq<FoodItem>>)
    ensures category == AllCategories ==> r == items
    ensures r.Some? <==> items.Some?
    ensures category != AllCategories && r.Some? ==>
      forall x :: x in r.value <==> x in items.value && x.category == category
    ensures category != AllCategories && r.Some? ==>
      forall x :: multiset(r.value)[x] == if x.category == category then multiset(items.value)[x] else 0
  {
    if category == AllCategories then items
    else
      match items
      case None => None
      case Some(fs) =>
        var keep := (item: FoodItem) => item.category == category;
        assert forall x :: multiset(Seqs.Filter(fs, keep))[x] == if x.category == category then multiset(fs)[x] else 0 by {
          forall x
            ensures multiset(Seqs.Filter(fs, keep))[x] == if x.category == category then multiset(fs)[x] else 0
          {
            Seqs.FilterMultiset(fs, keep, x);
          }
        }
        Some(Seqs.Filter(fs, keep))
  }

  /** The filtered menu keeps the fetched order. */
  lemma FilteredItemsInOrder(items: seq<FoodItem>, category: string)
    ensures Seqs.IsSubsequence(FilteredItems(Some(items), category).value, items)
  {
    if category != AllCategories {
      Seqs.FilterIsSubsequence(items, (item: FoodItem) => item.category == category);
    } else {
      Seqs.FilterIsSubsequence(items, (item: FoodItem) => true);
      Seqs.FilterAllKept(items, (item: FoodItem) => true);
    }
  }

  /** `filteredItems?.length === 0`: the "No items found" message. */
  predicate ShowsNoItems(items: Option<seq<FoodItem>>, category: string) {
    var r := FilteredItems(items, category);
    r.Some? && |r.value| == 0
  }

  /** The message appears exactly when the menu is fetched and no item of it
      belongs to the chosen category (or the menu is empty, for 'all'). */
  lemma ShowsNoItemsIff(items: Option<seq<FoodItem>>, category: string)
    ensures ShowsNoItems(items, category) <==>
      && items.Some?
      && (category == AllCategories ==> |items.value| == 0)
      && (category != AllCategories ==> forall i :: 0 <= i < |items.value| ==> items.value[i].category != category)
  {
    if items.Some? && category != AllCategories {
      var r := FilteredItems(items, category).value;
      if |r| == 0 {
        forall i | 0 <= i < |items.value| ensures items.value[i].category != category {
          assert items.value[i] in items.value;
        }
      } else {
        assert r[0] in r;
      }
    }
  }
}
