/**
 * The product catalog store (src/store/productStore.js): an unchanging list
 * of products, the selected product, and the lookups and filters the shop
 * pages call. Prices are integer cents.
 */
module ProductStore {
  import opened Basics
  import opened Strings
  import opened Seqs

  /** A value in a product's `details` object. */
  datatype DetailValue = Text(text: string) | List(items: seq<string>) | Number(n: int)

  datatype Product = Product(
    id: int,
    name: string,
    price: int,          // cents
    category: string,
    description: string,
    inStock: bool,
    details: seq<(string, DetailValue)>)   // Object.entries order

  /** `name.toLowerCase().includes(q) || description.toLowerCase().includes(q)`
      with `q` the lower-cased query. */
  predicate MatchesSearch(p: Product, query: string)
  {
    MatchesQuery(p.name, query) || MatchesQuery(p.description, query)
  }

  /** getProductById, given the id already converted by `Number(id)`;
      `None` stands for a conversion that yields NaN. */
  function ProductById(products: seq<Product>, id: Option<int>): Option<Product>
  {
    FindFirst((p: Product) => id == Some(p.id), products)
  }

  /** getProductById returns the first product carrying the id, and nothing
      when no product does. */
  lemma ProductByIdSpec(products: seq<Product>, id: Option<int>)
    ensures ProductById(products, id).Some? ==>
              ProductById(products, id).value in products && id == Some(ProductById(products, id).value.id)
    ensures ProductById(products, id).None? <==> forall i :: 0 <= i < |products| ==> id != Some(products[i].id)
    ensures forall i :: 0 <= i < |products| && id == Some(products[i].id) &&
                        (forall j :: 0 <= j < i ==> products[j].id != products[i].id) ==>
              ProductById(products, id) == Some(products[i])
  {
    forall i | 0 <= i < |products| && id == Some(products[i].id) &&
               (forall j :: 0 <= j < i ==> products[j].id != products[i].id)
      ensures ProductById(products, id) == Some(products[i])
    {
      FindFirstIsFirst((p: Product) => id == Some(p.id), products, i);
    }
  }

  /** getProductsByCategory; the empty string stands for every falsy
      category (`''`, `null`, `undefined`). */
  function ProductsByCategory(products: seq<Product>, category: string): seq<Product>
  {
    if category == "" then products
    else Filter((p: Product) => p.category == category, products)
  }

  /** A falsy category returns the catalog; otherwise exactly the products of
      that category, in catalog order. */
  lemma ProductsByCategorySpec(products: seq<Product>, category: string)
    ensures category == "" ==> ProductsByCategory(products, category) == products
    ensures IsSubsequence(ProductsByCategory(products, category), products)
    ensures category != "" ==>
              (forall p :: p in ProductsByCategory(products, category) ==> p.category == category) &&
              (forall p :: p in products && p.category == category ==> p in ProductsByCategory(products, category))
  {
    if category == "" {
      FilterKeepsAll((p: Product) => true, products);
      FilterIsSubsequence((p: Product) => true, products);
    } else {
      FilterIsSubsequence((p: Product) => p.category == category, products);
    }
  }

  /** searchProducts. */
  function SearchProducts(products: seq<Product>, query: string): seq<Product>
  {
    Filter((p: Product) => MatchesSearch(p, query), products)
  }

  /** searchProducts keeps exactly the products whose name or description
      contains the query, ignoring case, in catalog order; "" keeps them all. */
  lemma SearchProductsSpec(products: seq<Product>, query: string)
    ensures IsSubsequence(SearchProducts(products, query), products)
    ensures forall p :: p in SearchProducts(products, query) ==> MatchesSearch(p, query)
    ensures forall p :: p in products && MatchesSearch(p, query) ==> p in SearchProducts(products, query)
    ensures query == "" ==> SearchProducts(products, query) == products
  {
    FilterIsSubsequence((p: Product) => MatchesSearch(p, query), products);
    if query == "" {
      forall i | 0 <= i < |products|
        ensures MatchesSearch(products[i], query)
      {
        EmptyQueryMatches(products[i].name);
      }
      FilterKeepsAll((p: Product) => MatchesSearch(p, query), products);
    }
  }

  /** One end of `priceRange`: `null`, missing (`undefined`), or a price. */
  datatype Bound = Null | Missing | Cents(value: int)

  datatype PriceRange = PriceRange(min: Bound, max: Bound)

  /** The argument object of filterProducts; `None` is `null`. */
  datatype Criteria = Criteria(
    category: Option<string>,
    inStock: Option<bool>,
    priceRange: Option<PriceRange>,
    searchTerm: string)

  /** filterProducts' defaults. */
  const DefaultCriteria := Criteria(None, None, None, "")

  /** `min === null || price >= min`; a missing bound compares as NaN, so false. */
  predicate AboveMin(price: int, b: Bound)
  {
    match b
    case Null => true
    case Missing => false
    case Cents(m) => price >= m
  }

  /** `max === null || price <= max`. */
  predicate BelowMax(price: int, b: Bound)
  {
    match b
    case Null => true
    case Missing => false
    case Cents(m) => price <= m
  }

  predicate MatchesPrice(p: Product, range: Option<PriceRange>)
  {
    range.None? || (AboveMin(p.price, range.value.min) && BelowMax(p.price, range.value.max))
  }

  /** The conjunction filterProducts applies to each product. */
  predicate MatchesCriteria(p: Product, c: Criteria)
  {
    && (c.category.None? || p.category == c.category.value)
    && (c.inStock.None? || p.inStock == c.inStock.value)
    && MatchesPrice(p, c.priceRange)
    && (Lower(c.searchTerm) == "" || MatchesSearch(p, c.searchTerm))
  }

  /** filterProducts. */
  function FilterProducts(products: seq<Product>, c: Criteria): seq<Product>
  {
    Filter((p: Product) => MatchesCriteria(p, c), products)
  }

  /** The result is an order-preserving subsequence holding exactly the
      products that satisfy all four tests. */
  lemma FilterProductsSpec(products: seq<Product>, c: Criteria)
    ensures IsSubsequence(FilterProducts(products, c), products)
    ensures forall p :: p in FilterProducts(products, c) ==> MatchesCriteria(p, c)
    ensures forall p :: p in products && MatchesCriteria(p, c) ==> p in FilterProducts(products, c)
  {
    FilterIsSubsequence((p: Product) => MatchesCriteria(p, c), products);
  }

  /** With every argument at its default the whole catalog comes back. */
  lemma DefaultCriteriaKeepAll(products: seq<Product>)
    ensures FilterProducts(products, DefaultCriteria) == products
  {
    FilterKeepsAll((p: Product) => MatchesCriteria(p, DefaultCriteria), products);
  }

  /** Both price bounds are inclusive, and a null bound does not constrain. */
  lemma PriceBoundsInclusive(p: Product, lo: Bound, hi: Bound)
    requires lo == Null || (lo.Cents? && lo.value <= p.price)
    requires hi == Null || (hi.Cents? && p.price <= hi.value)
    ensures MatchesPrice(p, Some(PriceRange(lo, hi)))
    ensures MatchesPrice(p, Some(PriceRange(Cents(p.price), Cents(p.price))))
  {
  }

  /** A range object that leaves out one of its bounds matches nothing:
      the missing bound compares as NaN. */
  lemma MissingBoundMatchesNothing(products: seq<Product>, c: Criteria)
    requires c.priceRange.Some? && (c.priceRange.value.min == Missing || c.priceRange.value.max == Missing)
    ensures FilterProducts(products, c) == []
  {
    FilterRejectsAll((p: Product) => MatchesCriteria(p, c), products);
  }

  /** The store: the catalog never changes; only the selection does. */
  class Store {
    const products: seq<Product>
    var selectedProduct: Option<Product>

    constructor (catalog: seq<Product>)
      ensures products == catalog && selectedProduct == None
    {
      products := catalog;
      selectedProduct := None;
    }

    /** setSelectedProduct: replaces the selection, and nothing else. */
    method SetSelectedProduct(p: Option<Product>)
      modifies this`selectedProduct
      ensures selectedProduct == p
    {
      selectedProduct := p;
    }

    /** getAllProducts. */
    function AllProducts(): (r: seq<Product>)
      ensures r == products
    {
      products
    }
  }
}
