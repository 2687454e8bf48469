/**
 * The admin rental equipment page (src/admin/Rentals.jsx): the equipment
 * list with its status counters, the search box and the category and
 * status menus, five rows per page, and the pagination bar.
 */
module AdminRentals {
  import opened Basics
  import opened Strings
  import opened Seqs

  /** A row of the table (period, renter, dates, thumbnail and condition are only displayed). */
  datatype Equipment = Equipment(id: int, name: string, category: string, rentalPrice: int, status: string)

  /** The list the simulated fetch delivers. */
  const MockEquipment: seq<Equipment> := [
    Equipment(1, "Tractor - John Deere 5E", "Heavy Machinery", 250, "rented"),
    Equipment(2, "Water Pump - 3HP", "Irrigation", 45, "available"),
    Equipment(3, "Harvester - Compact", "Heavy Machinery", 320, "maintenance"),
    Equipment(4, "Drone - Crop Monitoring", "Technology", 75, "rented"),
    Equipment(5, "Soil Testing Kit - Professional", "Tools", 35, "rented"),
    Equipment(6, "Seed Drill - Medium", "Planting", 120, "available")]

  const RowsPerPage: nat := 5
  const AnyCategory := "All Categories"
  const AnyStatus := "All Statuses"

  /** The search matches the name or the category, ignoring case; the menus
      match exactly, the status menu after lower-casing its value. */
  predicate Matches(e: Equipment, searchTerm: string, category: string, status: string)
  {
    && (MatchesQuery(e.name, searchTerm) || MatchesQuery(e.category, searchTerm))
    && (category == AnyCategory || e.category == category)
    && (status == AnyStatus || e.status == Lower(status))
  }

  function Filtered(items: seq<Equipment>, searchTerm: string, category: string, status: string): seq<Equipment>
  {
    Filter((e: Equipment) => Matches(e, searchTerm, category, status), items)
  }

  /** The filtered list keeps, in order, exactly the matching rows; with
      an empty search and both menus on "All" it is the whole list. */
  lemma FilteredSpec(items: seq<Equipment>, searchTerm: string, category: string, status: string)
    ensures IsSubsequence(Filtered(items, searchTerm, category, status), items)
    ensures forall e :: e in Filtered(items, searchTerm, category, status) <==> e in items && Matches(e, searchTerm, category, status)
    ensures searchTerm == "" && category == AnyCategory && status == AnyStatus ==>
              Filtered(items, searchTerm, category, status) == items
  {
    FilterIsSubsequence((e: Equipment) => Matches(e, searchTerm, category, status), items);
    if searchTerm == "" && category == AnyCategory && status == AnyStatus {
      forall i | 0 <= i < |items|
        ensures Matches(items[i], searchTerm, category, status)
      {
        EmptyQueryMatches(items[i].name);
      }
      FilterKeepsAll((e: Equipment) => Matches(e, searchTerm, category, status), items);
    }
  }

  /** The rows of the current page: `slice((page - 1) * 5, page * 5)`. */
  function Paginated(filtered: seq<Equipment>, page: int): (r: seq<Equipment>)
    ensures |r| <= RowsPerPage
    ensures page >= 1 ==> r == filtered[Min(PageStart(page, RowsPerPage), |filtered|)..Min(page * RowsPerPage, |filtered|)]
  {
    Page(filtered, page, RowsPerPage)
  }

  /** The page count the pagination bar shows: at least 1. */
  function DisplayedPages(n: nat): (r: nat)
    ensures r >= 1
    ensures (r - 1) * RowsPerPage < n <= r * RowsPerPage || (n == 0 && r == 1)
  {
    Max(1, CeilDiv(n, RowsPerPage))
  }

  /** Every page the bar offers holds at least one row, when there are rows. */
  lemma DisplayedPagesAreNonEmpty(filtered: seq<Equipment>, page: int)
    requires filtered != [] && 1 <= page <= DisplayedPages(|filtered|)
    ensures Paginated(filtered, page) != []
  {
  }

  /** The Previous button: disabled on page 1, otherwise one page back. */
  function PreviousClicked(current: int): (r: int)
    ensures current != 1 ==> r == current - 1
    ensures current == 1 ==> r == 1
  {
    if current == 1 then current else current - 1
  }

  /** The Next button: disabled on the last page, otherwise one page on. */
  function NextClicked(current: int, totalPages: int): (r: int)
    ensures current != totalPages ==> r == current + 1
    ensures current == totalPages ==> r == current
  {
    if current == totalPages then current else current + 1
  }

  /** From a page in range both buttons stay in range. */
  lemma ButtonsKeepPageInRange(current: int, totalPages: int)
    requires 1 <= current <= totalPages
    ensures 1 <= PreviousClicked(current) <= totalPages
    ensures 1 <= NextClicked(current, totalPages) <= totalPages
  {
  }

  /** The counters: all rows, then those rented, available and in maintenance. */
  function Stats(items: seq<Equipment>): (r: (nat, nat, nat, nat))
    ensures r.0 == |items|
    ensures r.1 == CountWhere((e: Equipment) => e.status == "rented", items)
    ensures r.2 == CountWhere((e: Equipment) => e.status == "available", items)
    ensures r.3 == CountWhere((e: Equipment) => e.status == "maintenance", items)
  {
    (|items|,
     CountWhere((e: Equipment) => e.status == "rented", items),
     CountWhere((e: Equipment) => e.status == "available", items),
     CountWhere((e: Equipment) => e.status == "maintenance", items))
  }

  lemma {:induction false} StatusCountsBounded(items: seq<Equipment>)
    ensures CountWhere((e: Equipment) => e.status == "rented", items) +
            CountWhere((e: Equipment) => e.status == "available", items) +
            CountWhere((e: Equipment) => e.status == "maintenance", items) <= |items|
    decreases |items|
  {
    if items != [] {
      StatusCountsBounded(items[1..]);
    }
  }

  /** A row has one status, so the three status counters add up to at most the total. */
  lemma StatsBounded(items: seq<Equipment>)
    ensures Stats(items).1 + Stats(items).2 + Stats(items).3 <= Stats(items).0
  {
    StatusCountsBounded(items);
  }

  /** The status badge's colour; an unknown status is grey. */
  datatype Colour = Blue | Green | Yellow | Red | Grey

  function StatusColour(status: string): (c: Colour)
    ensures c == Grey <==> status !in {"rented", "available", "maintenance", "overdue"}
    ensures c == Red <==> status == "overdue"
    ensures c == Blue <==> status == "rented"
    ensures c == Green <==> status == "available"
    ensures c == Yellow <==> status == "maintenance"
  {
    if status == "rented" then Blue
    else if status == "available" then Green
    else if status == "maintenance" then Yellow
    else if status == "overdue" then Red
    else Grey
  }

  /**
   * Typing in the search box keeps the page number. With more than five
   * matching rows page 2 is a real page; a search leaving one to five rows
   * keeps the page at 2, beyond the single page the bar now shows, and the
   * table is empty although rows match.
   */
  lemma SearchCanStrandPage(items: seq<Equipment>, category: string, status: string, before: string, after: string)
    requires |Filtered(items, before, category, status)| > RowsPerPage
    requires 1 <= |Filtered(items, after, category, status)| <= RowsPerPage
    ensures 2 <= DisplayedPages(|Filtered(items, before, category, status)|)
    ensures DisplayedPages(|Filtered(items, after, category, status)|) == 1
    ensures Paginated(Filtered(items, after, category, status), 2) == []
  {
  }

  /** The page state. */
  class Dashboard {
    var items: seq<Equipment>
    var loading: bool
    var searchTerm: string
    var selectedCategory: string
    var selectedStatus: string
    var currentPage: int

    constructor ()
      ensures items == [] && loading && searchTerm == ""
      ensures selectedCategory == AnyCategory && selectedStatus == AnyStatus && currentPage == 1
      ensures PageInRange()
    {
      items := [];
      loading := true;
      searchTerm := "";
      selectedCategory := AnyCategory;
      selectedStatus := AnyStatus;
      currentPage := 1;
    }

    function Rows(): seq<Equipment>
      reads this
    {
      Filtered(items, searchTerm, selectedCategory, selectedStatus)
    }

    /** The page lies within the pages the bar offers. */
    predicate PageInRange()
      reads this
    {
      1 <= currentPage <= DisplayedPages(|Rows()|)
    }

    /** The simulated fetch completing. */
    method Loaded()
      modifies this`items, this`loading
      ensures items == MockEquipment && !loading
    {
      items := MockEquipment;
      loading := false;
    }

    /** The search box as written: the page is left as it is. */
    method SetSearchTerm(term: string)
      modifies this`searchTerm
      ensures searchTerm == term && currentPage == old(currentPage)
    {
      searchTerm := term;
    }

    /** The search box resetting the page like the two menus do. */
    method SetSearchTermResettingPage(term: string)
      modifies this`searchTerm, this`currentPage
      ensures searchTerm == term && currentPage == 1
      ensures PageInRange()
    {
      searchTerm := term;
      currentPage := 1;
    }

    /** The category menu; the page goes back to 1. */
    method ChangeCategory(category: string)
      modifies this`selectedCategory, this`currentPage
      ensures selectedCategory == category && currentPage == 1
      ensures PageInRange()
    {
      selectedCategory := category;
      currentPage := 1;
    }

    /** The status menu; the page goes back to 1. */
    method ChangeStatus(status: string)
      modifies this`selectedStatus, this`currentPage
      ensures selectedStatus == status && currentPage == 1
      ensures PageInRange()
    {
      selectedStatus := status;
      currentPage := 1;
    }

    /** "Clear filters", offered when nothing matches; the page is kept. */
    method ClearFilters()
      modifies this`searchTerm, this`selectedCategory, this`selectedStatus
      ensures searchTerm == "" && selectedCategory == AnyCategory && selectedStatus == AnyStatus
      ensures currentPage == old(currentPage)
      ensures old(PageInRange()) && old(Rows()) == [] ==> PageInRange()
    {
      searchTerm := "";
      selectedCategory := AnyCategory;
      selectedStatus := AnyStatus;
    }

    method Previous()
      modifies this`currentPage
      ensures currentPage == PreviousClicked(old(currentPage))
      ensures old(PageInRange()) ==> PageInRange()
    {
      currentPage := PreviousClicked(currentPage);
    }

    method Next()
      modifies this`currentPage
      ensures currentPage == NextClicked(old(currentPage), DisplayedPages(|Rows()|))
      ensures old(PageInRange()) ==> PageInRange()
    {
      currentPage := NextClicked(currentPage, DisplayedPages(|Rows()|));
    }

    /** A numbered button; there is one for each page from 1 to the count. */
    method GoToPage(page: int)
      requires 1 <= page <= DisplayedPages(|Rows()|)
      modifies this`currentPage
      ensures currentPage == page && PageInRange()
    {
      currentPage := page;
    }
  }
}
