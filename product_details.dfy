/**
 * The product details page (src/pages/ProductDetails.jsx): the lookup of the
 * product named in the route, the related products under it, the guarded
 * quantity field and the specifications tab.
 */
module ProductDetails {
  import opened Basics
  import opened Strings
  import opened Seqs
  import opened Numbers
  import opened ProductStore

  /** The related products: others of the same category, the first four. */
  function RelatedProducts(products: seq<Product>, product: Product): (r: seq<Product>)
    ensures |r| <= 4
    ensures forall i :: 0 <= i < |r| ==> r[i] in products && r[i].id != product.id
    ensures product.category != "" ==> forall i :: 0 <= i < |r| ==> r[i].category == product.category
  {
    var others := Filter((p: Product) => p.id != product.id, ProductsByCategory(products, product.category));
    ProductsByCategorySpec(products, product.category);
    JsSlice(others, 0, 4)
  }

  /**
   * They keep catalog order and are the first four qualifying products; a
   * product without a category (a falsy one) is related to every other product.
   */
  lemma RelatedProductsSpec(products: seq<Product>, product: Product)
    ensures IsSubsequence(RelatedProducts(products, product), products)
    ensures var others := Filter((p: Product) =>
                                   p.id != product.id && (product.category == "" || p.category == product.category),
                                 products);
            RelatedProducts(products, product) == others[..Min(4, |others|)]
  {
    var byCat := ProductsByCategory(products, product.category);
    var others := Filter((p: Product) => p.id != product.id, byCat);
    var direct := Filter((p: Product) =>
                           p.id != product.id && (product.category == "" || p.category == product.category),
                         products);
    TakeIsPrefix(others, 4);
    if product.category == "" {
      FilterSamePredicate((p: Product) => p.id != product.id,
                          (p: Product) => p.id != product.id && (product.category == "" || p.category == product.category),
                          products);
    } else {
      FilterOfFilter((p: Product) => p.category == product.category, (p: Product) => p.id != product.id,
                     (p: Product) => p.id != product.id && (product.category == "" || p.category == product.category),
                     products);
    }
    assert others == direct;
    FilterIsSubsequence((p: Product) =>
                          p.id != product.id && (product.category == "" || p.category == product.category),
                        products);
    PrefixIsSubsequence(direct, Min(4, |direct|), products);
  }

  /** What the page shows once the lookup has run. */
  datatype DetailsView =
    | NotFound
    | Found(product: Product, related: seq<Product>, showsCartControls: bool)

  /** The page for the route id (already converted by `Number`, `None` for NaN). */
  function ViewFor(products: seq<Product>, id: Option<int>): (v: DetailsView)
    ensures v.NotFound? <==> forall i :: 0 <= i < |products| ==> id != Some(products[i].id)
    ensures v.Found? ==> v.product in products && id == Some(v.product.id)
    ensures v.Found? ==> v.related == RelatedProducts(products, v.product)
    ensures v.Found? ==> (v.showsCartControls <==> v.product.inStock)
  {
    ProductByIdSpec(products, id);
    match ProductById(products, id)
    case None => NotFound
    case Some(p) => Found(p, RelatedProducts(products, p), p.inStock)
  }

  /** handleQuantityChange: keep the parsed value only when it is positive. */
  function NextQuantity(current: int, input: string): (r: int)
    ensures current >= 1 ==> r >= 1
    ensures r == current || (ParseInt(input) == Some(r) && r > 0)
    ensures (ParseInt(input).None? || ParseInt(input).value <= 0) ==> r == current
  {
    match ParseInt(input)
    case Some(v) => if v > 0 then v else current
    case None => current
  }

  /**
   * Typing digits sets the quantity to their value when it is positive; "0",
   * a negative number and text without digits leave it as it was, and a
   * fraction is cut at the point.
   */
  lemma TypedQuantities(current: int, digits: string, rest: string)
    requires digits != [] && AllDigits(digits)
    requires rest == [] || !IsDigit(rest[0])
    requires !(digits == "0" && rest != [] && (rest[0] == 'x' || rest[0] == 'X'))
    ensures NextQuantity(current, digits + rest) == if DigitsValue(digits) > 0 then DigitsValue(digits) else current
    ensures NextQuantity(current, "-" + (digits + rest)) == current
    ensures NextQuantity(current, "") == current
  {
    ParseDecimalPrefix(digits, rest);
    ParseIntWithoutDigits("");
  }

  /** The specification rows: every detail except features, benefits, rating and reviews. */
  const HiddenSpecKeys: set<string> := {"features", "benefits", "rating", "reviews"}

  function Specifications(details: seq<(string, DetailValue)>): (r: seq<(string, DetailValue)>)
    ensures forall i :: 0 <= i < |r| ==> r[i] in details && r[i].0 !in HiddenSpecKeys
    ensures forall i :: 0 <= i < |details| && details[i].0 !in HiddenSpecKeys ==> details[i] in r
  {
    Filter((e: (string, DetailValue)) => e.0 !in HiddenSpecKeys, details)
  }

  /** The rows keep the order of the details object. */
  lemma SpecificationsKeepOrder(details: seq<(string, DetailValue)>)
    ensures IsSubsequence(Specifications(details), details)
  {
    FilterIsSubsequence((e: (string, DetailValue)) => e.0 !in HiddenSpecKeys, details);
  }

  /** The page's quantity field. */
  class QuantityField {
    var quantity: int

    ghost predicate Valid()
      reads this
    {
      quantity >= 1
    }

    constructor ()
      ensures quantity == 1 && Valid()
    {
      quantity := 1;
    }

    /** handleQuantityChange. */
    method HandleQuantityChange(input: string)
      requires Valid()
      modifies this
      ensures quantity == NextQuantity(old(quantity), input) && Valid()
    {
      match ParseInt(input)
      case Some(v) =>
        if v > 0 {
          quantity := v;
        }
      case None =>
    }
  }
}
