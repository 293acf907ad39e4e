/**
 * The product page (`Produto.tsx`): the size, colour and quantity the
 * shopper picks, the add-to-cart button and what pressing it does. The
 * page's state lives in a class whose methods are the page's handlers; the
 * cart itself is a parameter (its answer, success or failure).
 */
module ProductPage {
  import opened Common

  /** The product as the page reads it; prices in cents. */
  datatype Product = Product(id: string, price: int, originalPrice: Option<int>, sizes: seq<string>, colors: seq<string>, isActive: bool)

  /** What the page asks the cart for. */
  datatype AddRequest = AddRequest(productId: string, quantity: int, size: Option<string>, color: Option<string>)

  /** Where pressing "Adicionar ao Carrinho" ends. */
  datatype AddOutcome = SizeRequired | LoginRequired | AddFailed(request: AddRequest) | Added(request: AddRequest)

  /** `original_price && original_price > price`: a zero or missing original price shows no discount. */
  predicate HasDiscount(originalPrice: Option<int>, price: int)
  {
    originalPrice.Some? && originalPrice.value != 0 && originalPrice.value > price
  }

  /** The size check of the handler: a product with sizes needs one picked. */
  predicate MissingSize(p: Product, selectedSize: string)
  {
    |p.sizes| > 0 && selectedSize == ""
  }

  /** The button's `disabled`: busy, inactive, or a required size missing. */
  function AddButtonDisabled(p: Product, selectedSize: string, isAdding: bool): (disabled: bool)
    ensures !disabled ==> !isAdding && p.isActive && !MissingSize(p, selectedSize)
    ensures disabled ==> isAdding || !p.isActive || MissingSize(p, selectedSize)
  {
    isAdding || !p.isActive || MissingSize(p, selectedSize)
  }

  /** `Math.max(1, parseInt(text) || 1)`: NaN and 0 read as 1, and nothing goes below 1. */
  function TypedQuantity(parsed: Option<int>): (q: int)
    ensures q >= 1
    ensures parsed.Some? && parsed.value >= 1 ==> q == parsed.value
    ensures parsed.None? || parsed.value < 1 ==> q == 1
  {
    var n := if parsed.Some? && parsed.value != 0 then parsed.value else 1;
    if n > 1 then n else 1
  }

  /**
   * The handler's decision: the size check comes first, then the login
   * check; otherwise the cart is asked for the picked quantity, with an empty
   * size or colour sent as absent.
   */
  function AddDecision(p: Product, loggedIn: bool, selectedSize: string, selectedColor: string,
                       quantity: int, cartFails: bool): (r: AddOutcome)
    ensures r == SizeRequired <==> MissingSize(p, selectedSize)
    ensures r == LoginRequired <==> !MissingSize(p, selectedSize) && !loggedIn
    ensures (r.AddFailed? || r.Added?) ==>
              r.request == AddRequest(p.id, quantity, NonEmpty(selectedSize), NonEmpty(selectedColor))
    ensures r.Added? <==> !MissingSize(p, selectedSize) && loggedIn && !cartFails
  {
    if MissingSize(p, selectedSize) then SizeRequired
    else if !loggedIn then LoginRequired
    else
      var request := AddRequest(p.id, quantity, NonEmpty(selectedSize), NonEmpty(selectedColor));
      if cartFails then AddFailed(request) else Added(request)
  }

  /** A press on an enabled button never stops at the size check. */
  lemma EnabledButtonPassesSizeCheck(p: Product, loggedIn: bool, selectedSize: string, selectedColor: string,
                                     quantity: int, cartFails: bool)
    requires !AddButtonDisabled(p, selectedSize, false)
    ensures AddDecision(p, loggedIn, selectedSize, selectedColor, quantity, cartFails) != SizeRequired
  {
  }

  /**
   * The page itself never checks the colour: for a product with colours and
   * no sizes, a signed-in press sends the cart a request without a colour,
   * whatever the cart then answers. It is the cart that refuses such an add
   * (Cart.AddNeedsColor).
   */
  lemma ColorNotRequired(p: Product, quantity: int, cartFails: bool)
    requires |p.sizes| == 0 && |p.colors| > 0
    ensures var d := AddDecision(p, true, "", "", quantity, cartFails);
            (d.Added? || d.AddFailed?) && d.request == AddRequest(p.id, quantity, None, None)
  {
  }

  /** The page's picks and the state of its add button. */
  class ProductView {
    var selectedSize: string
    var selectedColor: string
    var quantity: int
    var isAdding: bool

    ghost predicate Valid()
      reads this
    {
      quantity >= 1
    }

    constructor ()
      ensures Valid()
      ensures selectedSize == "" && selectedColor == "" && quantity == 1 && !isAdding
    {
      selectedSize := "";
      selectedColor := "";
      quantity := 1;
      isAdding := false;
    }

    method SelectSize(size: string)
      modifies this
      ensures selectedSize == size
      ensures selectedColor == old(selectedColor) && quantity == old(quantity) && isAdding == old(isAdding)
    {
      selectedSize := size;
    }

    method SelectColor(color: string)
      modifies this
      ensures selectedColor == color
      ensures selectedSize == old(selectedSize) && quantity == old(quantity) && isAdding == old(isAdding)
    {
      selectedColor := color;
    }

    /** "−": one less, never below 1. */
    method Decrement()
      requires Valid()
      modifies this
      ensures Valid()
      ensures quantity == if old(quantity) > 1 then old(quantity) - 1 else 1
      ensures selectedSize == old(selectedSize) && selectedColor == old(selectedColor) && isAdding == old(isAdding)
    {
      quantity := if quantity - 1 > 1 then quantity - 1 else 1;
    }

    /** "+": one more. */
    method Increment()
      requires Valid()
      modifies this
      ensures Valid()
      ensures quantity == old(quantity) + 1
      ensures selectedSize == old(selectedSize) && selectedColor == old(selectedColor) && isAdding == old(isAdding)
    {
      quantity := quantity + 1;
    }

    /** Typing in the quantity box. */
    method TypeQuantity(parsed: Option<int>)
      requires Valid()
      modifies this
      ensures Valid()
      ensures quantity == TypedQuantity(parsed)
      ensures selectedSize == old(selectedSize) && selectedColor == old(selectedColor) && isAdding == old(isAdding)
    {
      var n := if parsed.Some? && parsed.value != 0 then parsed.value else 1;
      quantity := if n > 1 then n else 1;
    }

    /**
     * `handleAddToCart`: stop at a missing size or a missing login, else ask
     * the cart; after a successful add the picks reset to nothing and one.
     * The busy flag is back off once the cart has answered.
     */
    method HandleAddToCart(p: Product, loggedIn: bool, cartFails: bool) returns (outcome: AddOutcome)
      requires Valid()
      modifies this
      ensures Valid()
      ensures outcome == AddDecision(p, loggedIn, old(selectedSize), old(selectedColor), old(quantity), cartFails)
      ensures outcome.Added? ==> selectedSize == "" && selectedColor == "" && quantity == 1
      ensures !outcome.Added? ==>
                selectedSize == old(selectedSize) && selectedColor == old(selectedColor) && quantity == old(quantity)
      ensures outcome.AddFailed? || outcome.Added? ==> !isAdding
      ensures outcome == SizeRequired || outcome == LoginRequired ==> isAdding == old(isAdding)
    {
      if |p.sizes| > 0 && selectedSize == "" {
        return SizeRequired;
      }
      if !loggedIn {
        return LoginRequired;
      }
      isAdding := true;
      var request := AddRequest(p.id, quantity, NonEmpty(selectedSize), NonEmpty(selectedColor));
      if cartFails {
        outcome := AddFailed(request);
      } else {
        outcome := Added(request);
        selectedSize := "";
        selectedColor := "";
        quantity := 1;
      }
      isAdding := false;
    }
  }
}
