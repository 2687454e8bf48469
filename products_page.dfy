/**
 * The products page (src/pages/Products.jsx): search and category filtering
 * of the product catalog, six products per page, the "Showing a-b of n"
 * line, the category list, and the product card's add-to-cart button.
 */
module ProductsPage {
  import opened Basics
  import opened Strings
  import opened Seqs
  import opened ProductStore
  import opened CartStore
  import RentalPage

  const ProductsPerPage := 6

  /** A product is listed when it matches the search and the chosen category (`None` is all). */
  predicate Listed(p: Product, query: string, category: Option<string>)
  {
    MatchesSearch(p, query) && (category.None? || p.category == category.value)
  }

  /** `filteredProducts`. */
  function FilteredProducts(products: seq<Product>, query: string, category: Option<string>): seq<Product>
  {
    Filter((p: Product) => Listed(p, query, category), products)
  }

  /**
   * The listing keeps, in catalog order, exactly the products matching both
   * tests; it is the store's filterProducts with the same category and search
   * term and no stock or price constraint, and without a category it is
   * searchProducts.
   */
  lemma FilteredProductsSpec(products: seq<Product>, query: string, category: Option<string>)
    ensures IsSubsequence(FilteredProducts(products, query, category), products)
    ensures forall p :: p in FilteredProducts(products, query, category) ==> Listed(p, query, category)
    ensures forall p :: p in products && Listed(p, query, category) ==> p in FilteredProducts(products, query, category)
    ensures FilteredProducts(products, query, category) == FilterProducts(products, Criteria(category, None, None, query))
    ensures category.None? ==> FilteredProducts(products, query, category) == SearchProducts(products, query)
  {
    FilterIsSubsequence((p: Product) => Listed(p, query, category), products);
    forall i | 0 <= i < |products|
      ensures Listed(products[i], query, category) == MatchesCriteria(products[i], Criteria(category, None, None, query))
    {
      if Lower(query) == "" {
        assert |query| == 0;
        EmptyQueryMatches(products[i].name);
      }
    }
    FilterSamePredicate((p: Product) => Listed(p, query, category),
                        (p: Product) => MatchesCriteria(p, Criteria(category, None, None, query)), products);
    if category.None? {
      FilterSamePredicate((p: Product) => Listed(p, query, category),
                          (p: Product) => MatchesSearch(p, query), products);
    }
  }

  /** `currentProducts`: `filtered.slice(p * 6 - 6, p * 6)`. */
  function CurrentProducts(filtered: seq<Product>, page: int): (r: seq<Product>)
    ensures |r| <= ProductsPerPage
    ensures page >= 1 ==> r == filtered[Min(PageStart(page, ProductsPerPage), |filtered|)..Min(page * ProductsPerPage, |filtered|)]
  {
    Page(filtered, page, ProductsPerPage)
  }

  /** `Math.ceil(filtered.length / 6)`: 0 for an empty listing. */
  function TotalPages(filtered: seq<Product>): (r: nat)
    ensures (r - 1) * ProductsPerPage < |filtered| <= r * ProductsPerPage
    ensures r == 0 <==> filtered == []
  {
    CeilDiv(|filtered|, ProductsPerPage)
  }

  /** Every page from 1 to the page count is full except perhaps the last, which is non-empty. */
  lemma PagesInRangeAreNonEmpty(filtered: seq<Product>, page: int)
    requires 1 <= page <= TotalPages(filtered)
    ensures 1 <= |CurrentProducts(filtered, page)|
    ensures page < TotalPages(filtered) ==> |CurrentProducts(filtered, page)| == ProductsPerPage
  {
  }

  /** "Showing a-b of n": `(min(n, 1 + first), min(n, last))`. */
  function ShownRange(n: nat, page: int): (int, int)
  {
    (Min(n, 1 + PageStart(page, ProductsPerPage)), Min(n, page * ProductsPerPage))
  }

  /**
   * On a page in range the line names the 1-based positions of the first and
   * last product shown; with no results it reads "0-0".
   */
  lemma ShownRangeSpec(filtered: seq<Product>, page: int)
    ensures filtered == [] && page >= 1 ==> ShownRange(|filtered|, page) == (0, 0)
    ensures 1 <= page <= TotalPages(filtered) ==>
              ShownRange(|filtered|, page).0 == PageStart(page, ProductsPerPage) + 1 &&
              ShownRange(|filtered|, page).1 == PageStart(page, ProductsPerPage) + |CurrentProducts(filtered, page)|
  {
    if page >= 1 {
      assert page * ProductsPerPage == PageStart(page, ProductsPerPage) + ProductsPerPage;
    }
  }

  function ProductCategory(x: Product): string { x.category }

  /** `[...new Set(products.map(p => p.category))]`: each category once, in order of first appearance. */
  function Categories(products: seq<Product>): (r: seq<string>)
    ensures NoDuplicates(r)
    ensures forall i :: 0 <= i < |products| ==> products[i].category in r
    ensures forall c :: c in r ==> exists i :: 0 <= i < |products| && products[i].category == c
    ensures forall i :: 0 <= i < |r| ==> r[i] in MapSeq(ProductCategory, products)
    ensures forall i, j :: 0 <= i < j < |r| ==>
              FirstIndex(MapSeq(ProductCategory, products), r[i]) < FirstIndex(MapSeq(ProductCategory, products), r[j])
  {
    var cats := MapSeq(ProductCategory, products);
    DistinctFirstOccurrenceOrder(cats);
    Distinct(cats)
  }

  /** The card's button adds only products in stock. */
  function CardAddToCart(items: seq<CartItem>, p: Product): seq<CartItem>
  {
    if p.inStock then AddedTo(items, p) else items
  }

  /** An out-of-stock card leaves the cart alone; an in-stock one adds the
      product once, keeping the cart valid. */
  lemma CardAddToCartSpec(items: seq<CartItem>, p: Product)
    ensures !p.inStock ==> CardAddToCart(items, p) == items
    ensures p.inStock && !HasId(items, p.id) ==> CardAddToCart(items, p) == items + [CartItem(p, 1)]
    ensures HasId(items, p.id) ==> CardAddToCart(items, p) == items
    ensures CartValid(items) ==> CartValid(CardAddToCart(items, p))
  {
    AddedToSpec(items, p);
  }

  /** The page's own state: the search box, the chosen category and the page. */
  class View {
    const products: seq<Product>
    var searchQuery: string
    var selectedCategory: Option<string>
    var currentPage: int

    constructor (catalog: seq<Product>)
      ensures products == catalog
      ensures searchQuery == "" && selectedCategory == None && currentPage == 1
    {
      products := catalog;
      searchQuery := "";
      selectedCategory := None;
      currentPage := 1;
    }

    function Filtered(): seq<Product>
      reads this
    {
      FilteredProducts(products, searchQuery, selectedCategory)
    }

    /** Typing in the search box; the effect on `[searchQuery, selectedCategory]`
        then puts the page back to 1 when the query changed. */
    method SetSearchQuery(q: string)
      modifies this`searchQuery, this`currentPage
      ensures searchQuery == q
      ensures currentPage == if q != old(searchQuery) then 1 else old(currentPage)
    {
      if q != searchQuery {
        currentPage := 1;
      }
      searchQuery := q;
    }

    /** Choosing a category in the sidebar, with the same page reset. */
    method SelectCategory(c: Option<string>)
      modifies this`selectedCategory, this`currentPage
      ensures selectedCategory == c
      ensures currentPage == if c != old(selectedCategory) then 1 else old(currentPage)
    {
      if c != selectedCategory {
        currentPage := 1;
      }
      selectedCategory := c;
    }

    /** A numbered page button. */
    method GoToPage(page: int)
      modifies this`currentPage
      ensures currentPage == page
    {
      currentPage := page;
    }

    /** Previous: `Math.max(prev - 1, 1)`. */
    method PreviousPage()
      modifies this`currentPage
      ensures currentPage == RentalPage.PreviousPage(old(currentPage))
      ensures currentPage >= 1
    {
      currentPage := RentalPage.PreviousPage(currentPage);
    }

    /** Next: `Math.min(prev + 1, totalPages)`. */
    method NextPage()
      modifies this`currentPage
      ensures currentPage == RentalPage.NextPage(old(currentPage), TotalPages(Filtered()))
      ensures currentPage <= TotalPages(Filtered())
    {
      currentPage := RentalPage.NextPage(currentPage, TotalPages(Filtered()));
    }
  }
}
