/**
 * The shop listing (`Loja.tsx`): the category and search filters and how
 * they travel through the URL's search parameters, the products the
 * listing shows, the stock label and cart button of each card, and what the
 * card's cart button does.
 *
 * The product query is modelled as a filter over the loaded products in the
 * order the database returns them. The text search is modelled as
 * case-sensitive containment.
 */
module Storefront {
  import opened Common
  import Cart

  const ALL: string := "Todos"
  const DEFAULT_CATEGORIES: seq<string> := ["Todos", "Vestidos", "Conjuntos", "Blusas", "Croppeds", "Bodys", "Calcas", "Saias"]

  datatype Product = Product(
    id: string,
    name: string,
    description: string,
    category: string,
    sizes: Option<seq<string>>,
    colors: Option<seq<string>>,
    stock: Option<int>,
    isActive: bool)

  /**
   * Where the card's cart button leads; a direct add passes only the product
   * id, so the cart's defaults apply: its default quantity and no size or colour.
   */
  datatype CardAdd = GoToLogin | GoToProduct(productId: string)
                   | AddToCart(productId: string, quantity: int, size: Option<string>, color: Option<string>)

  /** The label under a card's price. */
  datatype StockLabel = NoLabel | SoldOut | FewLeft(count: int) | InStock(count: int)

  // ---------------------------------------------------------------------
  // Adding from a card

  /** `requiresSelection`: the product has a size or a colour to choose. */
  predicate RequiresSelection(p: Product)
  {
    (p.sizes.Some? && |p.sizes.value| > 0) || (p.colors.Some? && |p.colors.value| > 0)
  }

  /** `handleAddToCart` of a card: login first, then products with choices go to their page. */
  function CardAddTarget(loggedIn: bool, p: Product): (r: CardAdd)
    ensures r.AddToCart? <==> loggedIn && !RequiresSelection(p)
    ensures r.GoToLogin? <==> !loggedIn
    ensures r.GoToProduct? ==> r.productId == p.id && RequiresSelection(p)
    ensures r.AddToCart? ==> r.productId == p.id
    ensures r.AddToCart? ==> r.quantity == Cart.DEFAULT_QUANTITY == 1 && r.size.None? && r.color.None?
  {
    if !loggedIn then GoToLogin
    else if RequiresSelection(p) then GoToProduct(p.id)
    else AddToCart(p.id, Cart.DEFAULT_QUANTITY, None, None)
  }

  /** A product with a size or a colour is never added from the listing, only from its own page. */
  lemma SelectionGoesToProductPage(p: Product)
    requires RequiresSelection(p)
    ensures CardAddTarget(true, p) == GoToProduct(p.id)
    ensures forall loggedIn :: !CardAddTarget(loggedIn, p).AddToCart?
  {
  }

  // ---------------------------------------------------------------------
  // Stock label and button

  /** The stock line: none without a numeric stock; sold out at 0; "Restam n" up to 5; else the count. */
  function StockLabelOf(stock: Option<int>): (l: StockLabel)
    ensures l.NoLabel? <==> stock.None?
    ensures l.SoldOut? <==> stock == Some(0)
    ensures l.FewLeft? <==> stock.Some? && stock.value != 0 && stock.value <= 5
    ensures l.InStock? <==> stock.Some? && stock.value > 5
    ensures (l.FewLeft? || l.InStock?) ==> l.count == stock.value
  {
    if stock.None? then NoLabel
    else if stock.value == 0 then SoldOut
    else if stock.value <= 5 then FewLeft(stock.value)
    else InStock(stock.value)
  }

  /** The card's cart button: disabled while that product is being added, or at stock 0. */
  function CartButtonDisabled(p: Product, addingId: Option<string>): (disabled: bool)
    ensures p.stock == Some(0) ==> disabled
    ensures disabled <==> addingId == Some(p.id) || p.stock == Some(0)
  {
    addingId == Some(p.id) || p.stock == Some(0)
  }

  /** A sold-out label always comes with a disabled button. */
  lemma SoldOutDisablesButton(p: Product, addingId: Option<string>)
    requires StockLabelOf(p.stock).SoldOut?
    ensures CartButtonDisabled(p, addingId)
  {
  }

  // ---------------------------------------------------------------------
  // Categories and filters

  function Without(s: seq<string>, x: string): (r: seq<string>)
    ensures forall y :: y in r <==> y in s && y != x
    ensures |r| <= |s|
  {
    if |s| == 0 then [] else (if s[0] == x then [] else [s[0]]) + Without(s[1..], x)
  }

  /** `categoryOptions`: "Todos", then the loaded names, or the default names other than "Todos". */
  function CategoryOptions(loaded: seq<string>): (r: seq<string>)
    ensures |r| >= 1 && r[0] == ALL
    ensures |loaded| > 0 ==> r[1..] == loaded
    ensures |loaded| == 0 ==> r[1..] == Without(DEFAULT_CATEGORIES, ALL)
  {
    [ALL] + if |loaded| > 0 then loaded else Without(DEFAULT_CATEGORIES, ALL)
  }

  /** With nothing loaded, each default category is offered once, after "Todos". */
  lemma DefaultOptions()
    ensures CategoryOptions([]) == ["Todos", "Vestidos", "Conjuntos", "Blusas", "Croppeds", "Bodys", "Calcas", "Saias"]
  {
    var d := DEFAULT_CATEGORIES;
    assert d[1..][1..][1..][1..][1..][1..][1..][1..] == [];
  }

  /** `applyFiltersToParams`: `q` holds the trimmed term if any, `category` the category unless it is "Todos". */
  function FiltersToParams(category: string, term: string): (params: map<string, string>)
    ensures "q" in params <==> Trim(term) != ""
    ensures "q" in params ==> params["q"] == Trim(term)
    ensures "category" in params <==> category != ALL
    ensures "category" in params ==> params["category"] == category
    ensures forall k :: k in params ==> k == "q" || k == "category"
  {
    var withQuery: map<string, string> := if Trim(term) != "" then map["q" := Trim(term)] else map[];
    if category != ALL then withQuery["category" := category] else withQuery
  }

  /** The page's filters read from the search parameters: missing or empty means no term and "Todos". */
  function ParamsToFilters(params: map<string, string>): (filters: (string, string))
    ensures filters.0 != ""
    ensures "category" in params && params["category"] != "" ==> filters.0 == params["category"]
    ensures !("category" in params && params["category"] != "") ==> filters.0 == ALL
    ensures "q" in params ==> filters.1 == params["q"]
    ensures "q" !in params ==> filters.1 == ""
  {
    (if "category" in params then OrElse(params["category"], ALL) else ALL,
     if "q" in params then params["q"] else "")
  }

  /** Writing the filters to the URL and reading them back gives the category and the trimmed term. */
  lemma FiltersRoundTrip(category: string, term: string)
    requires category != ""
    ensures ParamsToFilters(FiltersToParams(category, term)) == (category, Trim(term))
  {
  }

  /** Filters read from the URL, written back, give the same filters again. */
  lemma ParamsStable(params: map<string, string>)
    ensures var (category, term) := ParamsToFilters(params);
            ParamsToFilters(FiltersToParams(category, term)) == (category, Trim(term))
  {
    var (category, term) := ParamsToFilters(params);
    assert category != "";
  }

  // ---------------------------------------------------------------------
  // The listing

  predicate Contains(s: string, part: string)
  {
    exists i, j :: 0 <= i <= j <= |s| && s[i..j] == part
  }

  /**
   * One product against the query: active; of the category unless it is
   * "Todos"; and, with a non-empty trimmed term, naming it in its name,
   * description or category.
   */
  predicate Matches(p: Product, category: string, term: string)
  {
    && p.isActive
    && (category != ALL ==> p.category == category)
    && (Trim(term) != "" ==> Contains(p.name, Trim(term)) || Contains(p.description, Trim(term)) || Contains(p.category, Trim(term)))
  }

  /** The products query: the loaded products that match, in their order. */
  function Listing(products: seq<Product>, category: string, term: string): (r: seq<Product>)
    ensures |r| <= |products|
    ensures forall i :: 0 <= i < |r| ==> Matches(r[i], category, term)
    ensures forall i :: 0 <= i < |products| && Matches(products[i], category, term) ==> products[i] in r
    ensures forall p :: p in r ==> p in products
  {
    if |products| == 0 then []
    else
      var rest := Listing(products[1..], category, term);
      assert forall i :: 1 <= i < |products| ==> products[i] == products[1..][i - 1];
      (if Matches(products[0], category, term) then [products[0]] else []) + rest
  }

  /** "Todos" with a blank term lists every active product, in order. */
  lemma {:induction false} UnfilteredListing(products: seq<Product>, term: string)
    requires Trim(term) == ""
    requires forall i :: 0 <= i < |products| ==> products[i].isActive
    ensures Listing(products, ALL, term) == products
  {
    if |products| > 0 {
      assert forall i :: 0 <= i < |products[1..]| ==> products[1..][i] == products[i + 1];
      UnfilteredListing(products[1..], term);
      assert Matches(products[0], ALL, term);
      assert products == [products[0]] + products[1..];
    }
  }

  /** Narrowing to one category keeps exactly the listed products of that category. */
  lemma {:induction false} CategoryNarrows(products: seq<Product>, category: string, term: string)
    requires category != ALL
    ensures Listing(products, category, term) == Listing(Listing(products, ALL, term), category, term)
  {
    if |products| > 0 {
      CategoryNarrows(products[1..], category, term);
      var p := products[0];
      var all := Listing(products, ALL, term);
      var restAll := Listing(products[1..], ALL, term);
      assert all == (if Matches(p, ALL, term) then [p] else []) + restAll;
      if Matches(p, ALL, term) {
        assert all[0] == p && all[1..] == restAll;
        assert Listing(all, category, term)
               == (if Matches(p, category, term) then [p] else []) + Listing(restAll, category, term);
      } else {
        assert !Matches(p, category, term);
        assert all == restAll;
      }
    }
  }
}
