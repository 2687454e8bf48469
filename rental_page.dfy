/**
 * The rental listing page (src/pages/Rental.jsx): the Previous/Next
 * targets, which page numbers the pagination bar shows, the related
 * equipment under a tool's details, and which view the page renders.
 * The state it reads lives in the rental store.
 */
module RentalPage {
  import opened Basics
  import opened Seqs
  import opened RentalStore

  /** The page the Previous arrow goes to: never below 1. */
  function PreviousPage(current: int): (r: int)
    ensures r >= 1
    ensures r <= current || current < 1
    ensures current > 1 ==> r == current - 1
  {
    Max(1, current - 1)
  }

  /** The page the Next arrow goes to: never past the last page. */
  function NextPage(current: int, totalPages: int): (r: int)
    ensures r <= totalPages
    ensures r >= current || current > totalPages
    ensures current < totalPages ==> r == current + 1
  {
    Min(totalPages, current + 1)
  }

  /** Previous is disabled on page 1, Next on the last page. */
  predicate PreviousDisabled(current: int) { current == 1 }
  predicate NextDisabled(current: int, totalPages: int) { current == totalPages }

  /** From a page in range the arrows stay in range, and each undoes the other. */
  lemma ArrowsStayInRange(current: int, totalPages: int)
    requires 1 <= current <= totalPages
    ensures 1 <= PreviousPage(current) <= totalPages
    ensures 1 <= NextPage(current, totalPages) <= totalPages
    ensures !PreviousDisabled(current) ==> NextPage(PreviousPage(current), totalPages) == current
    ensures !NextDisabled(current, totalPages) ==> PreviousPage(NextPage(current, totalPages)) == current
  {
  }

  /** The bar is rendered below a non-empty grid or list, and only when there
      is more than one page; an empty page shows the "no equipment" message
      instead. */
  predicate ShowsPagination(shownTools: nat, totalPages: int) { shownTools > 0 && totalPages > 1 }

  /** The bar is shown only when the matches do not fit on one page, and on a
      page in range exactly then; when it is hidden, page 1 already lists
      every match. */
  lemma PaginationShownBeyondOnePage(tools: seq<Tool>, st: ViewState)
    ensures ShowsPagination(|PaginatedTools(tools, st)|, TotalPages(tools, st)) ==>
              |FilteredTools(tools, st)| > ItemsPerPage
    ensures 1 <= st.currentPage <= TotalPages(tools, st) ==>
              (ShowsPagination(|PaginatedTools(tools, st)|, TotalPages(tools, st)) <==>
               |FilteredTools(tools, st)| > ItemsPerPage)
    ensures !ShowsPagination(|PaginatedTools(tools, st)|, TotalPages(tools, st)) && st.currentPage == 1 ==>
              PaginatedTools(tools, st) == SortedTools(tools, st)
  {
    TotalPagesSpec(tools, st);
    SortedLength(tools, st);
    PaginatedToolsSpec(tools, st);
    if 1 <= st.currentPage <= TotalPages(tools, st) {
      assert (st.currentPage - 1) * ItemsPerPage <= (TotalPages(tools, st) - 1) * ItemsPerPage;
    }
  }

  /** What the bar renders for one page number. */
  datatype Slot = PageButton(page: int) | Ellipsis | Nothing

  /** The window rule: the first and last pages and the pages within one of
      the current page get a button; the pages two away get "..." when a gap
      opens there; the rest render nothing. */
  function SlotFor(page: int, current: int, totalPages: int): Slot
  {
    if page == 1 || page == totalPages || (current - 1 <= page <= current + 1) then PageButton(page)
    else if (page == current - 2 && current > 3) || (page == current + 2 && current < totalPages - 2) then Ellipsis
    else Nothing
  }

  /** `[...Array(totalPages)].map(...)`: one slot per page 1..totalPages. */
  function Slots(current: int, totalPages: nat): (r: seq<Slot>)
    ensures |r| == totalPages
    ensures forall i :: 0 <= i < totalPages ==> r[i] == SlotFor(i + 1, current, totalPages)
  {
    seq(totalPages, i requires 0 <= i < totalPages => SlotFor(i + 1, current, totalPages))
  }

  /** The first, last and current pages always get a button. */
  lemma AnchorsHaveButtons(current: int, totalPages: nat)
    requires 1 <= current <= totalPages
    ensures Slots(current, totalPages)[0] == PageButton(1)
    ensures Slots(current, totalPages)[totalPages - 1] == PageButton(totalPages)
    ensures Slots(current, totalPages)[current - 1] == PageButton(current)
  {
  }

  /** Buttons go to at most five distinct pages: the two ends and the current page's neighbourhood. */
  lemma ButtonPagesAreFew(current: int, totalPages: nat, page: int)
    requires SlotFor(page, current, totalPages).PageButton?
    ensures page in {1, totalPages, current - 1, current, current + 1}
  {
  }

  /**
   * No gap goes unmarked: a page in range that renders nothing lies beyond
   * an ellipsis on its side of the current page.
   */
  lemma HiddenPagesLieBehindEllipsis(current: int, totalPages: nat, page: int)
    requires 1 <= current <= totalPages
    requires 1 <= page <= totalPages
    requires SlotFor(page, current, totalPages) == Nothing
    ensures page < current ==> page < current - 2 && SlotFor(current - 2, current, totalPages) == Ellipsis
    ensures page > current ==> page > current + 2 && SlotFor(current + 2, current, totalPages) == Ellipsis
  {
  }

  /** An ellipsis sits exactly two pages from the current one, strictly
      between page 1 and the last page. */
  lemma EllipsisPlacement(current: int, totalPages: nat, page: int)
    requires 1 <= page <= totalPages
    requires SlotFor(page, current, totalPages) == Ellipsis
    ensures page == current - 2 || page == current + 2
    ensures 1 < page < totalPages
  {
  }

  /** Related equipment: the first three tools of the sorted list that share
      the selected tool's category, other than the selected tool itself. */
  function RelatedTools(sorted: seq<Tool>, selected: Tool): (r: seq<Tool>)
    ensures |r| <= 3
    ensures forall i :: 0 <= i < |r| ==>
              r[i] in sorted && r[i].category == selected.category && r[i].id != selected.id
    ensures IsSubsequence(r, sorted)
  {
    var same := Filter((t: Tool) => t.category == selected.category && t.id != selected.id, sorted);
    FilterIsSubsequence((t: Tool) => t.category == selected.category && t.id != selected.id, sorted);
    TakeIsPrefix(same, 3);
    PrefixIsSubsequence(same, Min(3, |same|), sorted);
    JsSlice(same, 0, 3)
  }

  /** Related equipment is short only when fewer than three tools qualify. */
  lemma RelatedToolsAreTheFirstMatches(sorted: seq<Tool>, selected: Tool)
    ensures var same := Filter((t: Tool) => t.category == selected.category && t.id != selected.id, sorted);
            RelatedTools(sorted, selected) == same[..Min(3, |same|)]
  {
    var same := Filter((t: Tool) => t.category == selected.category && t.id != selected.id, sorted);
    TakeIsPrefix(same, 3);
  }

  /** The "items found" figure: every filtered tool, not only the current page. */
  function ItemsFound(tools: seq<Tool>, st: ViewState): nat
  {
    |FilteredTools(tools, st)|
  }

  /** The count does not depend on the page shown, and bounds the page's length. */
  lemma ItemsFoundIgnoresPage(tools: seq<Tool>, st: ViewState, page: int)
    ensures ItemsFound(tools, st.(currentPage := page)) == ItemsFound(tools, st)
    ensures |PaginatedTools(tools, st)| <= ItemsFound(tools, st)
  {
    SortedLength(tools, st);
    FilteredToolsDependOnFiltersOnly(tools, st, st.(currentPage := page));
  }

  /** What the page renders. */
  datatype RentalView = Listing | Details(tool: Tool) | Blank

  function ViewFor(tools: seq<Tool>, st: ViewState): (v: RentalView)
    ensures v.Details? <==> st.isViewingDetails && SelectedTool(tools, st).Some?
    ensures v.Details? ==> Some(v.tool) == SelectedTool(tools, st)
    ensures v == Blank <==> st.isViewingDetails && SelectedTool(tools, st).None?
  {
    if !st.isViewingDetails then Listing
    else match SelectedTool(tools, st)
      case Some(t) => Details(t)
      case None => Blank
  }

  /** Opening the details of an id no tool carries renders an empty page,
      because viewToolDetails does not check the id. */
  lemma UnknownIdRendersBlank(tools: seq<Tool>, st: ViewState, id: int)
    requires forall i :: 0 <= i < |tools| ==> tools[i].id != id
    ensures ViewFor(tools, st.(selectedToolId := Some(id), isViewingDetails := true)) == Blank
  {
  }

  /** Opening the details of a catalog tool renders that tool. */
  lemma KnownIdRendersDetails(tools: seq<Tool>, st: ViewState, i: nat)
    requires i < |tools|
    requires forall j :: 0 <= j < |tools| && tools[j].id == tools[i].id ==> tools[j] == tools[i]
    ensures ViewFor(tools, st.(selectedToolId := Some(tools[i].id), isViewingDetails := true)) == Details(tools[i])
  {
  }

  /** On page 1 the "No equipment found" message shows exactly when nothing matches. */
  lemma EmptyMessageOnFirstPage(tools: seq<Tool>, st: ViewState)
    requires st.currentPage == 1
    ensures PaginatedTools(tools, st) == [] <==> FilteredTools(tools, st) == []
  {
    SortedLength(tools, st);
    PaginatedToolsSpec(tools, st);
  }
}
