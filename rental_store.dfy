/**
 * The equipment-rental catalog store (src/store/rentalStore.js): the view
 * state of the rental page, the actions that change it, and the
 * filter -> sort -> page pipeline its getters compute from it.
 *
 * Daily prices are integer pesewas (hundredths of a cedi), ratings integer tenths.
 */
module RentalStore {
  import opened Basics
  import opened Strings
  import opened Seqs
  import opened Sorting

  datatype Tool = Tool(
    id: int,
    name: string,
    category: string,
    subcategory: string,
    rating: int,       // tenths of a star
    reviewCount: int,
    pricePerDay: int,  // pesewas: hundredths of a cedi
    available: bool,
    location: string,
    description: string)

  /** Every field of the store that the actions change. */
  datatype ViewState = ViewState(
    searchTerm: string,
    selectedCategory: string,
    selectedSubcategory: string,
    selectedLocation: string,
    availableOnly: bool,
    sortBy: string,
    viewMode: string,
    currentPage: int,
    expandedFilters: map<string, bool>,
    selectedToolId: Option<int>,   // None: null, or a number no tool has (NaN)
    isViewingDetails: bool)

  const ItemsPerPage: nat := 6

  /** The state the store is created with. */
  const InitialState: ViewState := ViewState(
    "", "", "", "", false, "recommended", "grid", 1,
    map["categories" := true, "subcategories" := true, "locations" := true, "availability" := true],
    None, false)

  /** The tool matches the search box and the four sidebar filters. */
  predicate MatchesFilters(st: ViewState, tool: Tool)
  {
    && (st.searchTerm == "" || MatchesQuery(tool.name, st.searchTerm) || MatchesQuery(tool.description, st.searchTerm))
    && (st.selectedCategory == "" || tool.category == st.selectedCategory)
    && (st.selectedSubcategory == "" || tool.subcategory == st.selectedSubcategory)
    && (st.selectedLocation == "" || tool.location == st.selectedLocation)
    && (!st.availableOnly || tool.available)
  }

  /** No filter is active. */
  predicate NoFilters(st: ViewState)
  {
    st.searchTerm == "" && st.selectedCategory == "" && st.selectedSubcategory == "" &&
    st.selectedLocation == "" && !st.availableOnly
  }

  /** getFilteredTools. */
  function FilteredTools(tools: seq<Tool>, st: ViewState): seq<Tool>
  {
    Filter((t: Tool) => MatchesFilters(st, t), tools)
  }

  /** The comparator of getSortedTools as an order relation: `price-low`
      ascending price, `price-high` descending price, `rating` descending
      rating, anything else descending review count. */
  function ToolOrder(sortBy: string): (Tool, Tool) -> bool
  {
    if sortBy == "price-low" then ByKey((t: Tool) => t.pricePerDay)
    else if sortBy == "price-high" then ByKey((t: Tool) => -t.pricePerDay)
    else if sortBy == "rating" then ByKey((t: Tool) => -t.rating)
    else ByKey((t: Tool) => -t.reviewCount)
  }

  /** getSortedTools: a sorted copy of the filtered tools. */
  function SortedTools(tools: seq<Tool>, st: ViewState): seq<Tool>
  {
    StableSort(ToolOrder(st.sortBy), FilteredTools(tools, st))
  }

  /** getPaginatedTools. */
  function PaginatedTools(tools: seq<Tool>, st: ViewState): seq<Tool>
  {
    Page(SortedTools(tools, st), st.currentPage, ItemsPerPage)
  }

  /** getTotalPages: `Math.ceil(sorted.length / 6)`, 0 for an empty result. */
  function TotalPages(tools: seq<Tool>, st: ViewState): nat
  {
    CeilDiv(|SortedTools(tools, st)|, ItemsPerPage)
  }

  /** `tools.find(tool => tool.id === id)`. */
  function FindTool(tools: seq<Tool>, id: Option<int>): Option<Tool>
  {
    FindFirst((t: Tool) => id == Some(t.id), tools)
  }

  /** getSelectedTool. */
  function SelectedTool(tools: seq<Tool>, st: ViewState): Option<Tool>
  {
    FindTool(tools, st.selectedToolId)
  }

  // ---------------------------------------------------------------------
  // Properties of the pipeline

  /** getFilteredTools keeps exactly the matching tools, in catalog order. */
  lemma FilteredToolsSpec(tools: seq<Tool>, st: ViewState)
    ensures IsSubsequence(FilteredTools(tools, st), tools)
    ensures forall t :: t in FilteredTools(tools, st) ==> t in tools && MatchesFilters(st, t)
    ensures forall t :: t in tools && MatchesFilters(st, t) ==> t in FilteredTools(tools, st)
  {
    FilterIsSubsequence((t: Tool) => MatchesFilters(st, t), tools);
  }

  /** With every filter empty the whole catalog comes back, in order. */
  lemma NoFiltersKeepsCatalog(tools: seq<Tool>, st: ViewState)
    requires NoFilters(st)
    ensures FilteredTools(tools, st) == tools
  {
    FilterKeepsAll((t: Tool) => MatchesFilters(st, t), tools);
  }

  /** Only the five filter fields decide the filtered list. */
  lemma FilteredToolsDependOnFiltersOnly(tools: seq<Tool>, st: ViewState, st': ViewState)
    requires st'.searchTerm == st.searchTerm && st'.selectedCategory == st.selectedCategory
    requires st'.selectedSubcategory == st.selectedSubcategory
    requires st'.selectedLocation == st.selectedLocation && st'.availableOnly == st.availableOnly
    ensures FilteredTools(tools, st') == FilteredTools(tools, st)
  {
    FilterSamePredicate((t: Tool) => MatchesFilters(st', t), (t: Tool) => MatchesFilters(st, t), tools);
  }

  lemma ToolOrderIsTotalPreorder(sortBy: string)
    ensures TotalPreorder(ToolOrder(sortBy))
  {
    if sortBy == "price-low" {
      ByKeyIsTotalPreorder((t: Tool) => t.pricePerDay);
    } else if sortBy == "price-high" {
      ByKeyIsTotalPreorder((t: Tool) => -t.pricePerDay);
    } else if sortBy == "rating" {
      ByKeyIsTotalPreorder((t: Tool) => -t.rating);
    } else {
      ByKeyIsTotalPreorder((t: Tool) => -t.reviewCount);
    }
  }

  /** What "sorted" means for each sort key. */
  predicate OrderedBy(sortBy: string, a: Tool, b: Tool)
  {
    if sortBy == "price-low" then a.pricePerDay <= b.pricePerDay
    else if sortBy == "price-high" then a.pricePerDay >= b.pricePerDay
    else if sortBy == "rating" then a.rating >= b.rating
    else a.reviewCount >= b.reviewCount
  }

  /** Two tools the comparator treats as equal (it returns 0). */
  predicate SameSortValue(sortBy: string, a: Tool, b: Tool)
  {
    OrderedBy(sortBy, a, b) && OrderedBy(sortBy, b, a)
  }

  /**
   * getSortedTools is a permutation of the filtered tools, ordered by the
   * selected key, and tools with the same sort value keep their filtered order.
   */
  lemma SortedToolsSpec(tools: seq<Tool>, st: ViewState, k: Tool)
    ensures multiset(SortedTools(tools, st)) == multiset(FilteredTools(tools, st))
    ensures forall i, j :: 0 <= i < j < |SortedTools(tools, st)| ==>
              OrderedBy(st.sortBy, SortedTools(tools, st)[i], SortedTools(tools, st)[j])
    ensures Filter((t: Tool) => SameSortValue(st.sortBy, t, k), SortedTools(tools, st)) ==
            Filter((t: Tool) => SameSortValue(st.sortBy, t, k), FilteredTools(tools, st))
  {
    var le := ToolOrder(st.sortBy);
    ToolOrderIsTotalPreorder(st.sortBy);
    StableSortSorted(le, FilteredTools(tools, st));
    assert forall a, b :: le(a, b) == OrderedBy(st.sortBy, a, b);
    StableSortIsStable(le, FilteredTools(tools, st), (t: Tool) => SameSortValue(st.sortBy, t, k), k);
  }

  /** The sorted list has as many tools as the filtered one. */
  lemma SortedLength(tools: seq<Tool>, st: ViewState)
    ensures |SortedTools(tools, st)| == |FilteredTools(tools, st)|
  {
    assert |multiset(SortedTools(tools, st))| == |multiset(FilteredTools(tools, st))|;
  }

  /**
   * getPaginatedTools: at most 6 tools; for a page p >= 1 it is the slice of
   * the sorted list starting at (p - 1) * 6.
   */
  lemma PaginatedToolsSpec(tools: seq<Tool>, st: ViewState)
    ensures |PaginatedTools(tools, st)| <= ItemsPerPage
    ensures st.currentPage >= 1 ==>
      var s := SortedTools(tools, st);
      var start := (st.currentPage - 1) * ItemsPerPage;
      PaginatedTools(tools, st) == s[Min(start, |s|)..Min(start + ItemsPerPage, |s|)]
  {
  }

  /** getTotalPages is ceil(n / 6) of the filtered count; 0 exactly when nothing matches. */
  lemma TotalPagesSpec(tools: seq<Tool>, st: ViewState)
    ensures var n := |FilteredTools(tools, st)|;
            (TotalPages(tools, st) - 1) * ItemsPerPage < n <= TotalPages(tools, st) * ItemsPerPage
    ensures TotalPages(tools, st) == 0 <==> FilteredTools(tools, st) == []
  {
    SortedLength(tools, st);
  }

  /** The pages 1..getTotalPages, laid end to end, are the sorted list. */
  lemma PagesCoverSortedTools(tools: seq<Tool>, st: ViewState)
    ensures PagesUpTo(SortedTools(tools, st), ItemsPerPage, TotalPages(tools, st)) == SortedTools(tools, st)
  {
    PagesReassemble(SortedTools(tools, st), ItemsPerPage);
  }

  /** setCurrentPage stores 0 as given, and page 0 is empty. */
  lemma PageZeroShowsNothing(tools: seq<Tool>, st: ViewState)
    requires st.currentPage == 0
    ensures PaginatedTools(tools, st) == []
  {
    PageZeroIsEmpty(SortedTools(tools, st), ItemsPerPage);
  }

  /** getSelectedTool yields the first catalog tool carrying the selected id. */
  lemma SelectedToolIsFirstMatch(tools: seq<Tool>, st: ViewState, i: nat)
    requires i < |tools| && st.selectedToolId == Some(tools[i].id)
    requires forall j :: 0 <= j < i ==> tools[j].id != tools[i].id
    ensures SelectedTool(tools, st) == Some(tools[i])
  {
    FindFirstIsFirst((t: Tool) => st.selectedToolId == Some(t.id), tools, i);
  }

  /** getSelectedTool looks in the whole catalog, whatever the filters say. */
  lemma SelectedToolIgnoresFilters(tools: seq<Tool>, st: ViewState, st': ViewState)
    requires st'.selectedToolId == st.selectedToolId
    ensures SelectedTool(tools, st') == SelectedTool(tools, st)
  {
  }

  /** `toggleFilterSection`: the flag after the toggle (a missing flag reads as false). */
  function Toggled(flags: map<string, bool>, section: string): (r: map<string, bool>)
    ensures r.Keys == flags.Keys + {section}
    ensures r[section] == !(section in flags && flags[section])
    ensures forall s :: s in flags && s != section ==> r[s] == flags[s]
  {
    flags[section := !(section in flags && flags[section])]
  }

  // ---------------------------------------------------------------------
  // The store object

  class Store {
    const tools: seq<Tool>
    const categories: seq<string>
    const subcategories: seq<string>
    const locations: seq<string>

    var searchTerm: string
    var selectedCategory: string
    var selectedSubcategory: string
    var selectedLocation: string
    var availableOnly: bool
    var sortBy: string
    var viewMode: string
    var currentPage: int
    var expandedFilters: map<string, bool>
    var selectedToolId: Option<int>
    var isViewingDetails: bool

    /** The store's view state as one value. */
    function Snapshot(): ViewState
      reads this
    {
      ViewState(searchTerm, selectedCategory, selectedSubcategory, selectedLocation,
                availableOnly, sortBy, viewMode, currentPage, expandedFilters,
                selectedToolId, isViewingDetails)
    }

    /** `create(...)` over a catalog: the unique category, subcategory and
        location lists are computed once, in first-occurrence order. */
    constructor (catalog: seq<Tool>)
      ensures tools == catalog
      ensures categories == Distinct(seq(|catalog|, i requires 0 <= i < |catalog| => catalog[i].category))
      ensures subcategories == Distinct(seq(|catalog|, i requires 0 <= i < |catalog| => catalog[i].subcategory))
      ensures locations == Distinct(seq(|catalog|, i requires 0 <= i < |catalog| => catalog[i].location))
      ensures Snapshot() == InitialState
    {
      tools := catalog;
      categories := Distinct(seq(|catalog|, i requires 0 <= i < |catalog| => catalog[i].category));
      subcategories := Distinct(seq(|catalog|, i requires 0 <= i < |catalog| => catalog[i].subcategory));
      locations := Distinct(seq(|catalog|, i requires 0 <= i < |catalog| => catalog[i].location));
      searchTerm, selectedCategory, selectedSubcategory, selectedLocation := "", "", "", "";
      availableOnly, sortBy, viewMode, currentPage := false, "recommended", "grid", 1;
      expandedFilters := InitialState.expandedFilters;
      selectedToolId, isViewingDetails := None, false;
    }

    method SetSearchTerm(term: string)
      modifies this`searchTerm, this`currentPage
      ensures Snapshot() == old(Snapshot()).(searchTerm := term, currentPage := 1)
    {
      searchTerm, currentPage := term, 1;
    }

    method SetSelectedCategory(category: string)
      modifies this`selectedCategory, this`currentPage
      ensures Snapshot() == old(Snapshot()).(selectedCategory := category, currentPage := 1)
    {
      selectedCategory, currentPage := category, 1;
    }

    method SetSelectedSubcategory(subcategory: string)
      modifies this`selectedSubcategory, this`currentPage
      ensures Snapshot() == old(Snapshot()).(selectedSubcategory := subcategory, currentPage := 1)
    {
      selectedSubcategory, currentPage := subcategory, 1;
    }

    method SetSelectedLocation(location: string)
      modifies this`selectedLocation, this`currentPage
      ensures Snapshot() == old(Snapshot()).(selectedLocation := location, currentPage := 1)
    {
      selectedLocation, currentPage := location, 1;
    }

    method ToggleAvailableOnly()
      modifies this`availableOnly, this`currentPage
      ensures Snapshot() == old(Snapshot()).(availableOnly := !old(availableOnly), currentPage := 1)
    {
      availableOnly, currentPage := !availableOnly, 1;
    }

    method SetAvailableOnly(value: bool)
      modifies this`availableOnly, this`currentPage
      ensures Snapshot() == old(Snapshot()).(availableOnly := value, currentPage := 1)
    {
      availableOnly, currentPage := value, 1;
    }

    method SetSortBy(key: string)
      modifies this`sortBy, this`currentPage
      ensures Snapshot() == old(Snapshot()).(sortBy := key, currentPage := 1)
    {
      sortBy, currentPage := key, 1;
    }

    /** Changes only the layout; filters, sort and page are untouched. */
    method SetViewMode(mode: string)
      modifies this`viewMode
      ensures Snapshot() == old(Snapshot()).(viewMode := mode)
    {
      viewMode := mode;
    }

    /** Stores the page exactly as given: no clamping to the page count. */
    method SetCurrentPage(page: int)
      modifies this`currentPage
      ensures Snapshot() == old(Snapshot()).(currentPage := page)
    {
      currentPage := page;
    }

    /** Flips one sidebar section's expanded flag. */
    method ToggleFilterSection(section: string)
      modifies this`expandedFilters
      ensures Snapshot() == old(Snapshot()).(expandedFilters := Toggled(old(expandedFilters), section))
    {
      expandedFilters := Toggled(expandedFilters, section);
    }

    /** Resets the five filters and the page; sort, layout, sections and selection stay. */
    method ClearAllFilters()
      modifies this`searchTerm, this`selectedCategory, this`selectedSubcategory,
               this`selectedLocation, this`availableOnly, this`currentPage
      ensures Snapshot() == old(Snapshot()).(searchTerm := "", selectedCategory := "",
                selectedSubcategory := "", selectedLocation := "", availableOnly := false,
                currentPage := 1)
      ensures NoFilters(Snapshot())
    {
      searchTerm, selectedCategory, selectedSubcategory, selectedLocation := "", "", "", "";
      availableOnly, currentPage := false, 1;
    }

    /** Selects an id and opens the detail view; the id is not checked against the catalog. */
    method ViewToolDetails(id: Option<int>)
      modifies this`selectedToolId, this`isViewingDetails
      ensures Snapshot() == old(Snapshot()).(selectedToolId := id, isViewingDetails := true)
    {
      selectedToolId, isViewingDetails := id, true;
    }

    /** Returns to the listing and keeps the selected id. */
    method BackToListings()
      modifies this`isViewingDetails
      ensures Snapshot() == old(Snapshot()).(isViewingDetails := false)
    {
      isViewingDetails := false;
    }

    function GetFilteredTools(): (r: seq<Tool>)
      reads this
      ensures IsSubsequence(r, tools)
      ensures forall t :: t in r ==> MatchesFilters(Snapshot(), t)
      ensures forall t :: t in tools && MatchesFilters(Snapshot(), t) ==> t in r
    {
      FilteredToolsSpec(tools, Snapshot());
      FilteredTools(tools, Snapshot())
    }

    function GetSortedTools(): (r: seq<Tool>)
      reads this
      ensures multiset(r) == multiset(GetFilteredTools())
      ensures forall i, j :: 0 <= i < j < |r| ==> OrderedBy(sortBy, r[i], r[j])
    {
      SortedToolsSpec(tools, Snapshot(), Tool(0, "", "", "", 0, 0, 0, false, "", ""));
      SortedTools(tools, Snapshot())
    }

    function GetPaginatedTools(): (r: seq<Tool>)
      reads this
      ensures |r| <= ItemsPerPage
      ensures currentPage >= 1 ==>
        var s := GetSortedTools();
        var start := (currentPage - 1) * ItemsPerPage;
        r == s[Min(start, |s|)..Min(start + ItemsPerPage, |s|)]
    {
      PaginatedToolsSpec(tools, Snapshot());
      PaginatedTools(tools, Snapshot())
    }

    function GetTotalPages(): (r: nat)
      reads this
      ensures (r - 1) * ItemsPerPage < |GetFilteredTools()| <= r * ItemsPerPage
      ensures r == 0 <==> GetFilteredTools() == []
    {
      TotalPagesSpec(tools, Snapshot());
      TotalPages(tools, Snapshot())
    }

    function GetSelectedTool(): (r: Option<Tool>)
      reads this
      ensures r.Some? ==> r.value in tools && selectedToolId == Some(r.value.id)
      ensures r.None? <==> forall t :: t in tools ==> selectedToolId != Some(t.id)
    {
      SelectedTool(tools, Snapshot())
    }
  }
}
