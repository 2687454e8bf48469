/**
 * The admin products table (src/admin/ProductsList.jsx): a local product
 * list, a name search and a category filter, sorting by a clicked column
 * in either direction, the featured toggle, deletion, and the three
 * counters above the table.
 */
module AdminProductsList {
  import opened Strings
  import opened Seqs
  import opened Sorting

  /** A row of the table (the image is left out). */
  datatype Item = Item(id: int, name: string, category: string, price: int, stock: int, featured: bool)

  /** The list the page starts with. */
  const SampleItems: seq<Item> := [
    Item(1, "Premium Tractor", "Heavy Machinery", 45000, 5, true),
    Item(2, "Irrigation System", "Irrigation", 2500, 15, false),
    Item(3, "Harvest Combine", "Heavy Machinery", 38000, 3, true),
    Item(4, "Soil Tester Kit", "Hand Tools", 120, 50, false),
    Item(5, "Sprinkler System", "Irrigation", 750, 20, false),
    Item(6, "Harvesting Sickle", "Hand Tools", 35, 100, false),
    Item(7, "Fertilizer Spreader", "Implements", 1200, 8, true)]

  const AllCategories := "All"

  function ItemCategory(x: Item): string { x.category }

  /** The category menu: "All", then each category once, in order of first appearance. */
  function CategoryMenu(items: seq<Item>): (r: seq<string>)
    ensures |r| >= 1 && r[0] == AllCategories
    ensures forall i :: 0 <= i < |items| ==> items[i].category in r
    ensures forall c :: c in r[1..] ==> exists i :: 0 <= i < |items| && items[i].category == c
    ensures NoDuplicates(r[1..])
    ensures forall i :: 1 <= i < |r| ==> r[i] in MapSeq(ItemCategory, items)
    ensures forall i, j :: 1 <= i < j < |r| ==>
              FirstIndex(MapSeq(ItemCategory, items), r[i]) < FirstIndex(MapSeq(ItemCategory, items), r[j])
  {
    var cats := MapSeq(ItemCategory, items);
    DistinctFirstOccurrenceOrder(cats);
    var distinct := Distinct(cats);
    assert ([AllCategories] + distinct)[1..] == distinct;
    [AllCategories] + distinct
  }

  /** The row passes the search box (name only, ignoring case; empty means
      no test) and the category menu ("All" means no test). */
  predicate Shown(it: Item, searchTerm: string, category: string)
  {
    (searchTerm == "" || MatchesQuery(it.name, searchTerm)) && (category == AllCategories || it.category == category)
  }

  /** The comparator of a column, ascending: names by `localeCompare`,
      prices and stock numerically, any other column compares all rows equal. */
  function ColumnOrder(field: string): (Item, Item) -> bool
  {
    if field == "name" then (a: Item, b: Item) => LexLe(a.name, b.name)
    else if field == "price" then ByKey((it: Item) => it.price)
    else if field == "stock" then ByKey((it: Item) => it.stock)
    else (a: Item, b: Item) => true
  }

  /** `asc` keeps the comparison, anything else negates it. */
  function SortOrder(field: string, direction: string): (Item, Item) -> bool
  {
    if direction == "asc" then ColumnOrder(field) else Reversed(ColumnOrder(field))
  }

  lemma SortOrderIsTotalPreorder(field: string, direction: string)
    ensures TotalPreorder(SortOrder(field, direction))
  {
    var le := ColumnOrder(field);
    if field == "name" {
      forall a: Item, b: Item
        ensures le(a, b) || le(b, a)
      {
        LexLeTotal(a.name, b.name);
      }
      forall a: Item, b: Item, c: Item | le(a, b) && le(b, c)
        ensures le(a, c)
      {
        LexLeTransitive(a.name, b.name, c.name);
      }
    } else if field == "price" {
      ByKeyIsTotalPreorder((it: Item) => it.price);
    } else if field == "stock" {
      ByKeyIsTotalPreorder((it: Item) => it.stock);
    }
    assert TotalPreorder(le);
    if direction != "asc" {
      ReversedIsTotalPreorder(le);
    }
  }

  /** The effect's result: filter by search and category, then sort. */
  function Listed(items: seq<Item>, searchTerm: string, category: string, field: string, direction: string): seq<Item>
  {
    StableSort(SortOrder(field, direction), Filter((it: Item) => Shown(it, searchTerm, category), items))
  }

  /** What ordered by a column means, in each direction. */
  predicate InOrder(field: string, direction: string, a: Item, b: Item)
  {
    var asc := direction == "asc";
    if field == "name" then (if asc then LexLe(a.name, b.name) else LexLe(b.name, a.name))
    else if field == "price" then (if asc then a.price <= b.price else a.price >= b.price)
    else if field == "stock" then (if asc then a.stock <= b.stock else a.stock >= b.stock)
    else true
  }

  /**
   * The table shows exactly the rows passing the search and category tests,
   * each once, ordered by the chosen column and direction.
   */
  lemma ListedSpec(items: seq<Item>, searchTerm: string, category: string, field: string, direction: string)
    ensures var shown := Filter((it: Item) => Shown(it, searchTerm, category), items);
            multiset(Listed(items, searchTerm, category, field, direction)) == multiset(shown)
    ensures forall it :: it in Listed(items, searchTerm, category, field, direction) ==>
              it in items && Shown(it, searchTerm, category)
    ensures forall it :: it in items && Shown(it, searchTerm, category) ==>
              it in Listed(items, searchTerm, category, field, direction)
    ensures var r := Listed(items, searchTerm, category, field, direction);
            forall i, j :: 0 <= i < j < |r| ==> InOrder(field, direction, r[i], r[j])
  {
    var le := SortOrder(field, direction);
    var shown := Filter((it: Item) => Shown(it, searchTerm, category), items);
    var r := StableSort(le, shown);
    SortOrderIsTotalPreorder(field, direction);
    StableSortSorted(le, shown);
    SortOrderMeaning(field, direction, r);
    SameMembers(r, shown);
  }

  /** Sorted by the comparator is in order by the column. */
  lemma SortOrderMeaning(field: string, direction: string, r: seq<Item>)
    requires Sorted(SortOrder(field, direction), r)
    ensures forall i, j :: 0 <= i < j < |r| ==> InOrder(field, direction, r[i], r[j])
  {
    var le := SortOrder(field, direction);
    forall i, j | 0 <= i < j < |r|
      ensures InOrder(field, direction, r[i], r[j])
    {
      assert le(r[i], r[j]);
    }
  }

  /** Sequences with the same multiset have the same elements. */
  lemma SameMembers<T>(r: seq<T>, s: seq<T>)
    requires multiset(r) == multiset(s)
    ensures forall x :: x in r <==> x in s
  {
    forall x
      ensures x in r <==> x in s
    {
      assert x in r <==> x in multiset(r);
      assert x in s <==> x in multiset(s);
    }
  }

  /** With an unknown column every row compares equal, so the filtered order stays. */
  lemma UnknownColumnKeepsOrder(items: seq<Item>, searchTerm: string, category: string, field: string, direction: string)
    requires field != "name" && field != "price" && field != "stock"
    ensures Listed(items, searchTerm, category, field, direction) ==
            Filter((it: Item) => Shown(it, searchTerm, category), items)
  {
    var le := SortOrder(field, direction);
    var shown := Filter((it: Item) => Shown(it, searchTerm, category), items);
    SortOrderIsTotalPreorder(field, direction);
    if shown != [] {
      var k := shown[0];
      StableSortIsStable(le, shown, (it: Item) => true, k);
      FilterKeepsAll((it: Item) => true, shown);
      FilterKeepsAll((it: Item) => true, StableSort(le, shown));
    }
  }

  /** handleSort: the same column flips the direction, another column sorts it ascending. */
  function SortClicked(field: string, direction: string, clicked: string): (r: (string, string))
    ensures clicked != field ==> r == (clicked, "asc")
    ensures clicked == field ==> r.0 == field && (r.1 == "asc" <==> direction != "asc")
  {
    if field == clicked then (field, if direction == "asc" then "desc" else "asc")
    else (clicked, "asc")
  }

  /** Two clicks on the sorted column give back the direction, when it is one of the two. */
  lemma SortClickedTwice(field: string, direction: string)
    requires direction == "asc" || direction == "desc"
    ensures var once := SortClicked(field, direction, field);
            SortClicked(once.0, once.1, field) == (field, direction)
  {
  }

  /** toggleFeatured: flip the flag of the rows with the id. */
  function FeaturedToggled(items: seq<Item>, id: int): (r: seq<Item>)
    ensures |r| == |items|
    ensures forall i :: 0 <= i < |items| ==>
              r[i] == if items[i].id == id then items[i].(featured := !items[i].featured) else items[i]
  {
    seq(|items|, i requires 0 <= i < |items| =>
      if items[i].id == id then items[i].(featured := !items[i].featured) else items[i])
  }

  /** Toggling twice restores the list, and only the flag changes. */
  lemma FeaturedToggledTwice(items: seq<Item>, id: int)
    ensures FeaturedToggled(FeaturedToggled(items, id), id) == items
    ensures forall i :: 0 <= i < |items| ==>
              FeaturedToggled(items, id)[i].(featured := items[i].featured) == items[i]
  {
  }

  /** deleteProduct: after confirmation the rows with the id are dropped. */
  function Deleted(items: seq<Item>, id: int, confirmed: bool): (r: seq<Item>)
    ensures !confirmed ==> r == items
    ensures forall it :: it in r ==> it in items && (confirmed ==> it.id != id)
  {
    if confirmed then Filter((it: Item) => it.id != id, items) else items
  }

  /** Deletion keeps the other rows in order and removes as many rows as carry the id. */
  lemma DeletedSpec(items: seq<Item>, id: int)
    ensures IsSubsequence(Deleted(items, id, true), items)
    ensures forall it :: it in items && it.id != id ==> it in Deleted(items, id, true)
    ensures |Deleted(items, id, true)| == |items| - CountWhere((it: Item) => it.id == id, items)
  {
    FilterIsSubsequence((it: Item) => it.id != id, items);
    FilterLength((it: Item) => it.id != id, items);
    CountComplement((it: Item) => it.id != id, (it: Item) => it.id == id, items);
  }

  lemma {:induction false} CountComplement<T>(p: T -> bool, q: T -> bool, s: seq<T>)
    requires forall x :: q(x) == !p(x)
    ensures CountWhere(p, s) + CountWhere(q, s) == |s|
    decreases |s|
  {
    if s != [] {
      CountComplement(p, q, s[1..]);
    }
  }

  /** The counters: every row, the featured rows, and the rows with fewer than 5 in stock. */
  function Stats(items: seq<Item>): (r: (nat, nat, nat))
    ensures r.0 == |items|
    ensures r.1 == |Filter((it: Item) => it.featured, items)|
    ensures r.2 == |Filter((it: Item) => it.stock < 5, items)|
  {
    (|items|, |Filter((it: Item) => it.featured, items)|, |Filter((it: Item) => it.stock < 5, items)|)
  }

  /** The stock badge: red below 5, yellow below 10, green otherwise. */
  datatype Badge = Red | Yellow | Green

  function StockBadge(stock: int): (b: Badge)
    ensures b == Red <==> stock < 5
    ensures b == Green <==> stock >= 10
  {
    if stock < 5 then Red else if stock < 10 then Yellow else Green
  }

  /** The low-stock counter counts exactly the rows with a red badge. */
  lemma LowStockIsRedBadges(items: seq<Item>)
    ensures Stats(items).2 == CountWhere((it: Item) => StockBadge(it.stock) == Red, items)
  {
    FilterSamePredicate((it: Item) => it.stock < 5, (it: Item) => StockBadge(it.stock) == Red, items);
    FilterLength((it: Item) => StockBadge(it.stock) == Red, items);
  }

  /** The page state. */
  class Table {
    var items: seq<Item>
    var searchTerm: string
    var filterCategory: string
    var sortField: string
    var sortDirection: string

    constructor ()
      ensures items == SampleItems && searchTerm == "" && filterCategory == AllCategories
      ensures sortField == "name" && sortDirection == "asc"
    {
      items := SampleItems;
      searchTerm := "";
      filterCategory := AllCategories;
      sortField := "name";
      sortDirection := "asc";
    }

    /** The rows on screen. */
    function Rows(): seq<Item>
      reads this
    {
      Listed(items, searchTerm, filterCategory, sortField, sortDirection)
    }

    method SetSearchTerm(term: string)
      modifies this`searchTerm
      ensures searchTerm == term
    {
      searchTerm := term;
    }

    method SetFilterCategory(category: string)
      modifies this`filterCategory
      ensures filterCategory == category
    {
      filterCategory := category;
    }

    method HandleSort(field: string)
      modifies this`sortField, this`sortDirection
      ensures (sortField, sortDirection) == SortClicked(old(sortField), old(sortDirection), field)
    {
      if sortField == field {
        sortDirection := if sortDirection == "asc" then "desc" else "asc";
      } else {
        sortField := field;
        sortDirection := "asc";
      }
    }

    method ToggleFeatured(id: int)
      modifies this`items
      ensures items == FeaturedToggled(old(items), id)
    {
      items := FeaturedToggled(items, id);
    }

    /** The browser's confirmation dialog's answer is a parameter. */
    method DeleteProduct(id: int, confirmed: bool)
      modifies this`items
      ensures items == Deleted(old(items), id, confirmed)
    {
      if confirmed {
        items := Filter((it: Item) => it.id != id, items);
      }
    }
  }
}
