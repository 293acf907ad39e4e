/**
 * The cart ledger of the storefront (`useCart`): stock resolution against a
 * product's flat stock or its variants, and the `cart_items` table with the
 * add, update, remove and clear mutations and the count and total read from it.
 *
 * The catalog (products with their variants embedded, as the joined queries
 * return them) is a read-only map handed to each operation. Prices are
 * integer cents.
 */
module Cart {
  import opened Common

  type UserId = string
  type ProductId = string
  type LineId = nat

  /** The quantity `addToCart` uses when its caller gives none. */
  const DEFAULT_QUANTITY: int := 1

  /** A `product_variants` row: colour and size are nullable, stock may be missing. */
  datatype Variant = Variant(color: Option<string>, size: Option<string>, stock: Option<int>)

  /** The columns of `products` the cart reads. */
  datatype Product = Product(
    name: string,
    isActive: bool,
    stock: Option<int>,
    sizes: seq<string>,
    colors: seq<string>,
    variants: seq<Variant>,
    price: int)

  /** A `cart_items` row. */
  datatype CartLine = CartLine(
    id: LineId,
    user: UserId,
    product: ProductId,
    size: Option<string>,
    color: Option<string>,
    quantity: int)

  /** The natural key of a cart line; a null size and a null colour are keys of their own. */
  datatype LineKey = LineKey(user: UserId, product: ProductId, size: Option<string>, color: Option<string>)

  datatype CartError =
    | NotLoggedIn
    | ProductNotFound
    | ProductInactive
    | SizeRequired
    | ColorRequired
    | InvalidCombination
    | OutOfStock
    | InsufficientStock(available: int)
    | LineNotFound

  /** Where an add lands and how much stock is available for it. */
  datatype Slot = Slot(key: LineKey, available: int)

  function Key(l: CartLine): LineKey
  {
    LineKey(l.user, l.product, l.size, l.color)
  }

  // ---------------------------------------------------------------------
  // Stock resolution

  /** `typeof stock === 'number' ? stock : 0`. */
  function StockValue(stock: Option<int>): int
  {
    if stock.Some? then stock.value else 0
  }

  /** `(v.size ?? null) === size && (v.color ?? null) === color`: exact, null-aware. */
  predicate Matches(v: Variant, size: Option<string>, color: Option<string>)
  {
    v.size == size && v.color == color
  }

  /** `variants.find(...)`: the index of the first matching variant. */
  function FindVariant(vs: seq<Variant>, size: Option<string>, color: Option<string>): (r: Option<nat>)
    ensures r.Some? ==> r.value < |vs| && Matches(vs[r.value], size, color)
    ensures r.Some? ==> forall j :: 0 <= j < r.value ==> !Matches(vs[j], size, color)
    ensures r.None? ==> forall j :: 0 <= j < |vs| ==> !Matches(vs[j], size, color)
  {
    if |vs| == 0 then None
    else if Matches(vs[0], size, color) then Some(0)
    else
      match FindVariant(vs[1..], size, color)
      case None => None
      case Some(i) => Some(i + 1)
  }

  /**
   * The stock an add or an update is checked against: the product's flat
   * stock when it has no variants, otherwise the stock of the variant that
   * matches the selection exactly.
   */
  function Resolve(p: Product, size: Option<string>, color: Option<string>): (r: Result<int, CartError>)
    ensures r.Failure? ==> r.error == InvalidCombination
  {
    if |p.variants| == 0 then Success(StockValue(p.stock))
    else
      match FindVariant(p.variants, size, color)
      case None => Failure(InvalidCombination)
      case Some(i) => Success(StockValue(p.variants[i].stock))
  }

  /** A product without variants resolves to its flat stock, whatever the selection. */
  lemma ResolveFlat(p: Product, size: Option<string>, color: Option<string>)
    requires |p.variants| == 0
    ensures Resolve(p, size, color) == Success(StockValue(p.stock))
  {
  }

  /**
   * With variants, a selection resolves if and only if some variant matches it
   * exactly, and then to that variant's stock: never to the flat stock.
   */
  lemma ResolveVariant(p: Product, size: Option<string>, color: Option<string>)
    requires |p.variants| > 0
    ensures Resolve(p, size, color).Success? <==> exists v :: v in p.variants && Matches(v, size, color)
    ensures Resolve(p, size, color).Success? ==>
              exists i :: 0 <= i < |p.variants| && Matches(p.variants[i], size, color)
                          && (forall j :: 0 <= j < i ==> !Matches(p.variants[j], size, color))
                          && Resolve(p, size, color).value == StockValue(p.variants[i].stock)
  {
    var f := FindVariant(p.variants, size, color);
    if f.Some? {
      assert p.variants[f.value] in p.variants;
    } else {
      forall v | v in p.variants ensures !Matches(v, size, color) {
        var j :| 0 <= j < |p.variants| && p.variants[j] == v;
      }
    }
  }

  /** The stock an existing line re-resolves to; a line whose product is gone has none. */
  function ResolveLine(catalog: map<ProductId, Product>, l: CartLine): (r: Result<int, CartError>)
    ensures r.Failure? ==> l.product in catalog && r.error == InvalidCombination
    ensures l.product !in catalog ==> r == Success(0)
  {
    if l.product in catalog then Resolve(catalog[l.product], l.size, l.color) else Success(0)
  }

  /** A size must be chosen when the product lists sizes or any variant carries a non-empty size. */
  predicate NeedsSize(p: Product)
  {
    |p.sizes| > 0 || exists v :: v in p.variants && v.size.Some? && v.size.value != ""
  }

  /** A colour must be chosen when the product lists colours or any variant carries a non-empty colour. */
  predicate NeedsColor(p: Product)
  {
    |p.colors| > 0 || exists v :: v in p.variants && v.color.Some? && v.color.value != ""
  }

  /** The checks before stock: a signed-in user, an existing active product and every selection it requires. */
  predicate SelectionComplete(user: Option<UserId>, catalog: map<ProductId, Product>, productId: ProductId,
                              size: string, color: string)
  {
    && user.Some? && productId in catalog && catalog[productId].isActive
    && (NeedsSize(catalog[productId]) ==> size != "")
    && (NeedsColor(catalog[productId]) ==> color != "")
  }

  /**
   * The checks `addToCart` runs before it looks at the cart: a signed-in
   * user, an existing and active product, the required selections, a variant
   * matching the selection and some stock. An empty `size` or `color` stands
   * for an absent one and is stored as null.
   */
  function CheckAdd(user: Option<UserId>, catalog: map<ProductId, Product>, productId: ProductId,
                    size: string, color: string): (r: Result<Slot, CartError>)
    ensures r.Success? <==>
              SelectionComplete(user, catalog, productId, size, color)
              && Resolve(catalog[productId], NonEmpty(size), NonEmpty(color)).Success?
              && Resolve(catalog[productId], NonEmpty(size), NonEmpty(color)).value > 0
    ensures user.None? ==> r == Failure(NotLoggedIn)
    ensures user.Some? && productId !in catalog ==> r == Failure(ProductNotFound)
    ensures user.Some? && productId in catalog && !catalog[productId].isActive ==> r == Failure(ProductInactive)
    ensures SelectionComplete(user, catalog, productId, size, color)
            && Resolve(catalog[productId], NonEmpty(size), NonEmpty(color)).Failure? ==>
              r == Failure(InvalidCombination)
    ensures SelectionComplete(user, catalog, productId, size, color)
            && Resolve(catalog[productId], NonEmpty(size), NonEmpty(color)).Success?
            && Resolve(catalog[productId], NonEmpty(size), NonEmpty(color)).value <= 0 ==>
              r == Failure(OutOfStock)
    ensures r.Success? ==> user.Some? && productId in catalog && catalog[productId].isActive
    ensures r.Success? ==> (NeedsSize(catalog[productId]) ==> size != "")
    ensures r.Success? ==> (NeedsColor(catalog[productId]) ==> color != "")
    ensures r.Success? ==> r.value.key == LineKey(user.value, productId, NonEmpty(size), NonEmpty(color))
    ensures r.Success? ==> 0 < r.value.available
    ensures r.Success? ==> Resolve(catalog[productId], NonEmpty(size), NonEmpty(color)) == Success(r.value.available)
  {
    if user.None? then Failure(NotLoggedIn)
    else if productId !in catalog then Failure(ProductNotFound)
    else
      var p := catalog[productId];
      if !p.isActive then Failure(ProductInactive)
      else if NeedsSize(p) && size == "" then Failure(SizeRequired)
      else if NeedsColor(p) && color == "" then Failure(ColorRequired)
      else
        var sizeValue, colorValue := NonEmpty(size), NonEmpty(color);
        match Resolve(p, sizeValue, colorValue)
        case Failure(e) => Failure(e)
        case Success(available) =>
          if available <= 0 then Failure(OutOfStock)
          else Success(Slot(LineKey(user.value, productId, sizeValue, colorValue), available))
  }

  /** Without a size, an add of a product that needs one fails, whatever the cart holds. */
  lemma AddNeedsSize(user: UserId, catalog: map<ProductId, Product>, productId: ProductId, color: string)
    requires productId in catalog && catalog[productId].isActive && NeedsSize(catalog[productId])
    ensures CheckAdd(Some(user), catalog, productId, "", color) == Failure(SizeRequired)
  {
  }

  /** Without a colour, an add of a product that needs one (and has its size) fails. */
  lemma AddNeedsColor(user: UserId, catalog: map<ProductId, Product>, productId: ProductId, size: string)
    requires productId in catalog && catalog[productId].isActive && NeedsColor(catalog[productId])
    requires size != "" || !NeedsSize(catalog[productId])
    ensures CheckAdd(Some(user), catalog, productId, size, "") == Failure(ColorRequired)
  {
  }

  // ---------------------------------------------------------------------
  // Selecting, finding and summing lines

  /** Which lines a delete or a read picks out. */
  datatype Selector = IdIs(id: LineId) | KeyIs(key: LineKey) | UserIs(user: UserId)

  predicate Selects(s: Selector, l: CartLine)
  {
    match s
    case IdIs(id) => l.id == id
    case KeyIs(k) => Key(l) == k
    case UserIs(u) => l.user == u
  }

  /** The first line the selector picks out (`maybeSingle` / `single` on a filtered query). */
  function Find(lines: seq<CartLine>, s: Selector): (r: Option<nat>)
    ensures r.Some? ==> r.value < |lines| && Selects(s, lines[r.value])
    ensures r.Some? ==> forall j :: 0 <= j < r.value ==> !Selects(s, lines[j])
    ensures r.None? ==> forall j :: 0 <= j < |lines| ==> !Selects(s, lines[j])
  {
    if |lines| == 0 then None
    else if Selects(s, lines[0]) then Some(0)
    else
      match Find(lines[1..], s)
      case None => None
      case Some(i) => Some(i + 1)
  }

  /** The lines the selector picks out, in table order. */
  function Keep(lines: seq<CartLine>, s: Selector): (r: seq<CartLine>)
    ensures forall l :: l in r <==> l in lines && Selects(s, l)
    ensures |r| <= |lines|
  {
    if |lines| == 0 then []
    else (if Selects(s, lines[0]) then [lines[0]] else []) + Keep(lines[1..], s)
  }

  /** The lines a `delete().eq(...)` leaves behind, in table order. */
  function Drop(lines: seq<CartLine>, s: Selector): (r: seq<CartLine>)
    ensures forall l :: l in r <==> l in lines && !Selects(s, l)
    ensures |r| <= |lines|
  {
    if |lines| == 0 then []
    else (if Selects(s, lines[0]) then [] else [lines[0]]) + Drop(lines[1..], s)
  }

  /** Sum of quantities (`cartCount`). */
  function Count(lines: seq<CartLine>): (r: int)
    ensures (forall i :: 0 <= i < |lines| ==> lines[i].quantity > 0) ==> r >= |lines|
  {
    if |lines| == 0 then 0 else lines[0].quantity + Count(lines[1..])
  }

  /** Live price of a line's product; a line whose product is gone is priced 0. */
  function PriceOf(catalog: map<ProductId, Product>, product: ProductId): int
  {
    if product in catalog then catalog[product].price else 0
  }

  /** Sum of price times quantity (`cartTotal`). */
  function Total(lines: seq<CartLine>, catalog: map<ProductId, Product>): (r: int)
    ensures (forall i :: 0 <= i < |lines| ==> lines[i].product !in catalog) ==> r == 0
  {
    if |lines| == 0 then 0
    else PriceOf(catalog, lines[0].product) * lines[0].quantity + Total(lines[1..], catalog)
  }

  /** One line adds its live price times its quantity; with TotalAppend this fixes every total. */
  lemma TotalOne(l: CartLine, catalog: map<ProductId, Product>)
    ensures Total([l], catalog) == PriceOf(catalog, l.product) * l.quantity
  {
    assert [l][1..] == [];
  }

  /** The quantity already in the cart under a key, 0 when there is no such line. */
  function QuantityOf(lines: seq<CartLine>, k: LineKey): int
  {
    match Find(lines, KeyIs(k))
    case Some(i) => lines[i].quantity
    case None => 0
  }

  /** At most one line per natural key and per id. */
  predicate Unique(lines: seq<CartLine>)
  {
    forall i, j :: 0 <= i < j < |lines| ==> Key(lines[i]) != Key(lines[j]) && lines[i].id != lines[j].id
  }

  /** Every line holds no more than the stock its key resolves to in `catalog`. */
  predicate WithinStock(catalog: map<ProductId, Product>, l: CartLine)
  {
    var a := ResolveLine(catalog, l);
    a.Success? && l.quantity <= a.value
  }

  // ---------------------------------------------------------------------
  // Lemmas about selecting and summing

  lemma {:induction false} KeepAppend(lines: seq<CartLine>, l: CartLine, s: Selector)
    ensures Keep(lines + [l], s) == Keep(lines, s) + (if Selects(s, l) then [l] else [])
  {
    if |lines| > 0 {
      assert (lines + [l])[1..] == lines[1..] + [l];
      KeepAppend(lines[1..], l, s);
      AppendAssoc(if Selects(s, lines[0]) then [lines[0]] else [], Keep(lines[1..], s), if Selects(s, l) then [l] else []);
    }
  }

  lemma {:induction false} DropAppend(lines: seq<CartLine>, l: CartLine, s: Selector)
    ensures Drop(lines + [l], s) == Drop(lines, s) + (if Selects(s, l) then [] else [l])
  {
    if |lines| > 0 {
      assert (lines + [l])[1..] == lines[1..] + [l];
      DropAppend(lines[1..], l, s);
      AppendAssoc(if Selects(s, lines[0]) then [] else [lines[0]], Drop(lines[1..], s), if Selects(s, l) then [] else [l]);
    }
  }

  /** Replacing a line by one the selector treats alike leaves what a delete keeps untouched when both are selected. */
  lemma {:induction false} DropUpdateSelected(lines: seq<CartLine>, i: nat, l: CartLine, s: Selector)
    requires i < |lines| && Selects(s, lines[i]) && Selects(s, l)
    ensures Drop(lines[i := l], s) == Drop(lines, s)
  {
    if i > 0 {
      assert lines[i := l][1..] == lines[1..][i - 1 := l];
      DropUpdateSelected(lines[1..], i - 1, l, s);
    }
  }

  lemma {:induction false} CountAppend(a: seq<CartLine>, b: seq<CartLine>)
    ensures Count(a + b) == Count(a) + Count(b)
  {
    if |a| > 0 {
      assert (a + b)[1..] == a[1..] + b;
      CountAppend(a[1..], b);
    } else {
      assert a + b == b;
    }
  }

  /** Changing one line's quantity moves the selected count by exactly the difference, when the line is selected. */
  lemma {:induction false} CountKeepUpdate(lines: seq<CartLine>, i: nat, q: int, s: Selector)
    requires i < |lines|
    ensures var l := lines[i].(quantity := q);
            Count(Keep(lines[i := l], s))
            == Count(Keep(lines, s)) + (if Selects(s, lines[i]) then q - lines[i].quantity else 0)
  {
    var l := lines[i].(quantity := q);
    var updated := lines[i := l];
    assert Selects(s, l) == Selects(s, lines[i]);
    var head := if Selects(s, updated[0]) then [updated[0]] else [];
    var head0 := if Selects(s, lines[0]) then [lines[0]] else [];
    CountAppend(head, Keep(updated[1..], s));
    CountAppend(head0, Keep(lines[1..], s));
    if i > 0 {
      assert updated[1..] == lines[1..][i - 1 := l];
      CountKeepUpdate(lines[1..], i - 1, q, s);
      assert lines[1..][i - 1] == lines[i];
    } else {
      assert updated[1..] == lines[1..];
    }
  }

  /** A delete keeps the table free of duplicate keys and ids, and issues no new id. */
  lemma {:induction false} DropKeepsUnique(lines: seq<CartLine>, s: Selector)
    requires Unique(lines)
    ensures Unique(Drop(lines, s))
  {
    if |lines| > 0 {
      DropKeepsUnique(lines[1..], s);
      var rest := Drop(lines[1..], s);
      forall j | 0 <= j < |rest|
        ensures Key(lines[0]) != Key(rest[j]) && lines[0].id != rest[j].id
      {
        assert rest[j] in lines[1..];
      }
    }
  }

  /** Deleting by the same filter twice deletes nothing more: removal and clearing are idempotent. */
  lemma {:induction false} DropIdempotent(lines: seq<CartLine>, s: Selector)
    ensures Drop(Drop(lines, s), s) == Drop(lines, s)
  {
    if |lines| > 0 {
      DropIdempotent(lines[1..], s);
      var head := if Selects(s, lines[0]) then [] else [lines[0]];
      DropConcat(head, Drop(lines[1..], s), s);
    }
  }

  lemma {:induction false} DropConcat(a: seq<CartLine>, b: seq<CartLine>, s: Selector)
    ensures Drop(a + b, s) == Drop(a, s) + Drop(b, s)
  {
    if |a| > 0 {
      assert (a + b)[1..] == a[1..] + b;
      DropConcat(a[1..], b, s);
      AppendAssoc(if Selects(s, a[0]) then [] else [a[0]], Drop(a[1..], s), Drop(b, s));
    } else {
      assert a + b == b;
    }
  }

  /** Nothing a selector deletes is still kept by it afterwards. */
  lemma {:induction false} KeepAfterDrop(lines: seq<CartLine>, s: Selector)
    ensures Keep(Drop(lines, s), s) == []
  {
    if |lines| > 0 {
      KeepAfterDrop(lines[1..], s);
      var head := if Selects(s, lines[0]) then [] else [lines[0]];
      KeepConcat(head, Drop(lines[1..], s), s);
    }
  }

  lemma {:induction false} KeepConcat(a: seq<CartLine>, b: seq<CartLine>, s: Selector)
    ensures Keep(a + b, s) == Keep(a, s) + Keep(b, s)
  {
    if |a| > 0 {
      assert (a + b)[1..] == a[1..] + b;
      KeepConcat(a[1..], b, s);
      AppendAssoc(if Selects(s, a[0]) then [a[0]] else [], Keep(a[1..], s), Keep(b, s));
    } else {
      assert a + b == b;
    }
  }

  /** With quantities and prices non-negative, the total is never negative. */
  lemma {:induction false} TotalNonNegative(lines: seq<CartLine>, catalog: map<ProductId, Product>)
    requires forall l :: l in lines ==> l.quantity >= 0
    requires forall p :: p in catalog ==> catalog[p].price >= 0
    ensures Total(lines, catalog) >= 0
  {
    if |lines| > 0 {
      assert lines[0] in lines;
      TotalNonNegative(lines[1..], catalog);
    }
  }

  /** The total is additive over the lines, like the count. */
  lemma {:induction false} TotalAppend(a: seq<CartLine>, b: seq<CartLine>, catalog: map<ProductId, Product>)
    ensures Total(a + b, catalog) == Total(a, catalog) + Total(b, catalog)
  {
    if |a| > 0 {
      assert (a + b)[1..] == a[1..] + b;
      TotalAppend(a[1..], b, catalog);
    } else {
      assert a + b == b;
    }
  }

  /** Replacing a line by one the selector treats alike does not move the first match. */
  lemma {:induction false} FindUpdate(lines: seq<CartLine>, i: nat, l: CartLine, s: Selector)
    requires i < |lines| && Selects(s, l) == Selects(s, lines[i])
    ensures Find(lines[i := l], s) == Find(lines, s)
  {
    if i > 0 {
      assert lines[i := l][1..] == lines[1..][i - 1 := l];
      FindUpdate(lines[1..], i - 1, l, s);
    } else {
      assert lines[i := l][1..] == lines[1..];
    }
  }

  /** Replacing a line by one with the same key and id keeps keys and ids unique. */
  lemma UpdateKeepsUnique(lines: seq<CartLine>, i: nat, l: CartLine)
    requires i < |lines| && Key(l) == Key(lines[i]) && l.id == lines[i].id
    requires Unique(lines)
    ensures Unique(lines[i := l])
  {
    var updated := lines[i := l];
    assert forall j :: 0 <= j < |lines| ==> Key(updated[j]) == Key(lines[j]) && updated[j].id == lines[j].id;
  }

  lemma UpdateMembers(lines: seq<CartLine>, i: nat, l: CartLine)
    requires i < |lines|
    ensures forall x :: x in lines[i := l] ==> x == l || x in lines
  {
    forall x | x in lines[i := l] ensures x == l || x in lines {
      var j :| 0 <= j < |lines| && lines[i := l][j] == x;
      if j != i { assert lines[j] == x; }
    }
  }

  /** What a merge into the existing line under `slot.key` does to the table. */
  lemma MergeLine(lines: seq<CartLine>, nextId: nat, catalog: map<ProductId, Product>, slot: Slot, i: nat, quantity: int)
    requires Unique(lines) && (forall l :: l in lines ==> l.id < nextId)
    requires Find(lines, KeyIs(slot.key)) == Some(i)
    requires slot.key.product in catalog
    requires Resolve(catalog[slot.key.product], slot.key.size, slot.key.color) == Success(slot.available)
    requires lines[i].quantity + quantity <= slot.available
    ensures Unique(lines[i := lines[i].(quantity := lines[i].quantity + quantity)])
    ensures forall l :: l in lines[i := lines[i].(quantity := lines[i].quantity + quantity)] ==> l.id < nextId
    ensures (forall l :: l in lines ==> WithinStock(catalog, l)) ==>
              forall l :: l in lines[i := lines[i].(quantity := lines[i].quantity + quantity)] ==> WithinStock(catalog, l)
    ensures quantity > 0 && (forall l :: l in lines ==> l.quantity > 0) ==>
              forall l :: l in lines[i := lines[i].(quantity := lines[i].quantity + quantity)] ==> l.quantity > 0
    ensures Find(lines[i := lines[i].(quantity := lines[i].quantity + quantity)], KeyIs(slot.key)) == Some(i)
    ensures QuantityOf(lines[i := lines[i].(quantity := lines[i].quantity + quantity)], slot.key) == lines[i].quantity + quantity
    ensures Drop(lines[i := lines[i].(quantity := lines[i].quantity + quantity)], KeyIs(slot.key)) == Drop(lines, KeyIs(slot.key))
  {
    var merged := lines[i].(quantity := lines[i].quantity + quantity);
    UpdateKeepsUnique(lines, i, merged);
    UpdateMembers(lines, i, merged);
    assert ResolveLine(catalog, merged) == Success(slot.available);
    FindUpdate(lines, i, merged, KeyIs(slot.key));
    DropUpdateSelected(lines, i, merged, KeyIs(slot.key));
  }

  /** A merge raises the user's count by exactly the quantity added. */
  lemma MergeCount(lines: seq<CartLine>, slot: Slot, i: nat, quantity: int)
    requires Find(lines, KeyIs(slot.key)) == Some(i)
    ensures Count(Keep(lines[i := lines[i].(quantity := lines[i].quantity + quantity)], UserIs(slot.key.user)))
            == Count(Keep(lines, UserIs(slot.key.user))) + quantity
  {
    assert Selects(UserIs(slot.key.user), lines[i]);
    CountKeepUpdate(lines, i, lines[i].quantity + quantity, UserIs(slot.key.user));
  }

  /** Inserting a line with a fresh id under a key the table does not hold keeps keys and ids unique. */
  lemma InsertKeepsUnique(lines: seq<CartLine>, nextId: nat, line: CartLine)
    requires Unique(lines) && (forall l :: l in lines ==> l.id < nextId)
    requires Find(lines, KeyIs(Key(line))).None? && line.id == nextId
    ensures Unique(lines + [line])
    ensures forall l :: l in lines + [line] ==> l.id < nextId + 1
  {
    var updated := lines + [line];
    assert forall j :: 0 <= j < |lines| ==> updated[j] == lines[j];
    forall j | 0 <= j < |lines| ensures line.id != lines[j].id {
      assert lines[j] in lines;
    }
  }

  /** What inserting a fresh line under a key the table does not hold yet does to the table. */
  lemma InsertLine(lines: seq<CartLine>, catalog: map<ProductId, Product>, slot: Slot, line: CartLine)
    requires Find(lines, KeyIs(slot.key)).None?
    requires Key(line) == slot.key
    requires slot.key.product in catalog
    requires Resolve(catalog[slot.key.product], slot.key.size, slot.key.color) == Success(slot.available)
    requires line.quantity <= slot.available
    ensures (forall l :: l in lines ==> WithinStock(catalog, l)) ==>
              forall l :: l in lines + [line] ==> WithinStock(catalog, l)
    ensures line.quantity > 0 && (forall l :: l in lines ==> l.quantity > 0) ==>
              forall l :: l in lines + [line] ==> l.quantity > 0
    ensures Find(lines + [line], KeyIs(slot.key)) == Some(|lines|)
    ensures QuantityOf(lines + [line], slot.key) == line.quantity
    ensures Drop(lines + [line], KeyIs(slot.key)) == Drop(lines, KeyIs(slot.key))
  {
    assert forall l :: l in lines + [line] ==> l == line || l in lines;
    assert ResolveLine(catalog, line) == Success(slot.available);
    FindAppend(lines, line, KeyIs(slot.key));
    DropAppend(lines, line, KeyIs(slot.key));
  }

  /** Appending a line the selector picks, to lines it does not, makes the new line the first match. */
  lemma {:induction false} FindAppend(lines: seq<CartLine>, l: CartLine, s: Selector)
    requires Find(lines, s).None? && Selects(s, l)
    ensures Find(lines + [l], s) == Some(|lines|)
  {
    if |lines| > 0 {
      assert (lines + [l])[1..] == lines[1..] + [l];
      FindAppend(lines[1..], l, s);
    }
  }

  /** An insert raises the user's count by exactly the new line's quantity. */
  lemma InsertCount(lines: seq<CartLine>, line: CartLine)
    ensures Count(Keep(lines + [line], UserIs(line.user))) == Count(Keep(lines, UserIs(line.user))) + line.quantity
  {
    KeepAppend(lines, line, UserIs(line.user));
    CountAppend(Keep(lines, UserIs(line.user)), [line]);
  }

  /**
   * The table after an add the stock allows: the quantity merged into the
   * line under the slot's key, or a new line with the next id at the end.
   */
  function AddLine(lines: seq<CartLine>, nextId: nat, slot: Slot, quantity: int): (r: seq<CartLine>)
    ensures |r| == if Find(lines, KeyIs(slot.key)).Some? then |lines| else |lines| + 1
    ensures |r| > |lines| ==> r[..|lines|] == lines && r[|lines|].id == nextId && r[|lines|].quantity == quantity
  {
    match Find(lines, KeyIs(slot.key))
    case Some(i) => lines[i := lines[i].(quantity := lines[i].quantity + quantity)]
    case None => lines + [CartLine(nextId, slot.key.user, slot.key.product, slot.key.size, slot.key.color, quantity)]
  }

  lemma AddLineMerges(lines: seq<CartLine>, nextId: nat, slot: Slot, quantity: int, i: nat)
    requires Find(lines, KeyIs(slot.key)) == Some(i)
    ensures AddLine(lines, nextId, slot, quantity) == lines[i := lines[i].(quantity := lines[i].quantity + quantity)]
  {
  }

  /**
   * An add keeps keys and ids unique and the stock bound, leaves exactly one
   * line under the key holding the old quantity plus the added one, touches
   * no other line and raises the user's count by the quantity added.
   */
  lemma AddLineEffect(lines: seq<CartLine>, nextId: nat, catalog: map<ProductId, Product>, slot: Slot, quantity: int)
    requires Unique(lines) && (forall l :: l in lines ==> l.id < nextId)
    requires slot.key.product in catalog
    requires Resolve(catalog[slot.key.product], slot.key.size, slot.key.color) == Success(slot.available)
    requires QuantityOf(lines, slot.key) + quantity <= slot.available
    ensures Unique(AddLine(lines, nextId, slot, quantity))
    ensures forall l :: l in AddLine(lines, nextId, slot, quantity) ==> l.id < nextId + 1
    ensures (forall l :: l in lines ==> WithinStock(catalog, l)) ==>
              forall l :: l in AddLine(lines, nextId, slot, quantity) ==> WithinStock(catalog, l)
    ensures quantity > 0 && (forall l :: l in lines ==> l.quantity > 0) ==>
              forall l :: l in AddLine(lines, nextId, slot, quantity) ==> l.quantity > 0
    ensures Find(AddLine(lines, nextId, slot, quantity), KeyIs(slot.key)).Some?
    ensures QuantityOf(AddLine(lines, nextId, slot, quantity), slot.key) == QuantityOf(lines, slot.key) + quantity
    ensures Drop(AddLine(lines, nextId, slot, quantity), KeyIs(slot.key)) == Drop(lines, KeyIs(slot.key))
    ensures Count(Keep(AddLine(lines, nextId, slot, quantity), UserIs(slot.key.user)))
            == Count(Keep(lines, UserIs(slot.key.user))) + quantity
  {
    match Find(lines, KeyIs(slot.key))
    case Some(i) =>
      assert AddLine(lines, nextId, slot, quantity) == lines[i := lines[i].(quantity := lines[i].quantity + quantity)];
      MergeLine(lines, nextId, catalog, slot, i, quantity);
      MergeCount(lines, slot, i, quantity);
    case None =>
      var line := CartLine(nextId, slot.key.user, slot.key.product, slot.key.size, slot.key.color, quantity);
      assert AddLine(lines, nextId, slot, quantity) == lines + [line];
      InsertKeepsUnique(lines, nextId, line);
      InsertLine(lines, catalog, slot, line);
      InsertCount(lines, line);
  }

  // ---------------------------------------------------------------------
  // The `cart_items` table

  class CartTable {
    /** The rows of `cart_items`, in insertion order. */
    var lines: seq<CartLine>
    /** The id the next inserted row receives. */
    var nextId: nat

    ghost predicate Valid()
      reads this
    {
      && (forall l :: l in lines ==> l.id < nextId)
      && Unique(lines)
    }

    /** Every line is within the stock it resolves to in `catalog`. */
    ghost predicate StockBounded(catalog: map<ProductId, Product>)
      reads this
    {
      forall l :: l in lines ==> WithinStock(catalog, l)
    }

    ghost predicate AllPositive()
      reads this
    {
      forall l :: l in lines ==> l.quantity > 0
    }

    /** The query behind `cartItems`: the signed-in user's lines, none without a user. */
    function Items(user: Option<UserId>): seq<CartLine>
      reads this
    {
      if user.None? then [] else Keep(lines, UserIs(user.value))
    }

    function CartCount(user: Option<UserId>): (r: int)
      reads this
      ensures user.None? ==> r == 0
    {
      Count(Items(user))
    }

    function CartTotal(user: Option<UserId>, catalog: map<ProductId, Product>): (r: int)
      reads this
      ensures user.None? ==> r == 0
    {
      Total(Items(user), catalog)
    }

    constructor ()
      ensures Valid() && lines == [] && nextId == 0
    {
      lines := [];
      nextId := 0;
    }

    /**
     * `addToCart`: after `CheckAdd`, merge into the line with the same natural
     * key or insert a new one, unless the cart would then hold more than the
     * available stock.
     */
    method AddToCart(user: Option<UserId>, catalog: map<ProductId, Product>, productId: ProductId,
                     quantity: int, size: string, color: string) returns (r: Result<(), CartError>)
      requires Valid()
      modifies this
      ensures Valid()
      ensures old(StockBounded(catalog)) ==> StockBounded(catalog)
      ensures quantity > 0 && old(AllPositive()) ==> AllPositive()
      ensures r.Failure? ==> lines == old(lines) && nextId == old(nextId)
      ensures CheckAdd(user, catalog, productId, size, color).Failure? ==>
                r == Failure(CheckAdd(user, catalog, productId, size, color).error)
      ensures var c := CheckAdd(user, catalog, productId, size, color);
              c.Success? && QuantityOf(old(lines), c.value.key) + quantity > c.value.available ==>
                r == Failure(InsufficientStock(c.value.available))
      ensures var c := CheckAdd(user, catalog, productId, size, color);
              c.Success? && QuantityOf(old(lines), c.value.key) + quantity <= c.value.available ==>
                r == Success(()) && lines == AddLine(old(lines), old(nextId), c.value, quantity)
      ensures var c := CheckAdd(user, catalog, productId, size, color);
              c.Success? && r.Success? ==>
                Find(lines, KeyIs(c.value.key)).Some?
                && QuantityOf(lines, c.value.key) == QuantityOf(old(lines), c.value.key) + quantity
      ensures var c := CheckAdd(user, catalog, productId, size, color);
              c.Success? && r.Success? ==> Drop(lines, KeyIs(c.value.key)) == Drop(old(lines), KeyIs(c.value.key))
      ensures r.Success? ==> CartCount(user) == old(CartCount(user)) + quantity
    {
      var c := CheckAdd(user, catalog, productId, size, color);
      if c.Failure? {
        return Failure(c.error);
      }
      var slot := c.value;
      var found := Find(lines, KeyIs(slot.key));
      var existing := if found.Some? then lines[found.value].quantity else 0;
      assert existing == QuantityOf(lines, slot.key);
      if existing + quantity > slot.available {
        return Failure(InsufficientStock(slot.available));
      }
      AddLineEffect(lines, nextId, catalog, slot, quantity);
      lines, nextId := AddLine(lines, nextId, slot, quantity), nextId + 1;
      r := Success(());
    }

    /**
     * `updateQuantity`: re-resolve the line's stock; fail when there is none,
     * delete the line for a quantity of zero or less, otherwise overwrite the
     * quantity if the stock allows it.
     */
    method UpdateQuantity(user: Option<UserId>, catalog: map<ProductId, Product>, itemId: LineId,
                          quantity: int) returns (r: Result<(), CartError>)
      requires Valid()
      modifies this
      ensures Valid()
      ensures old(StockBounded(catalog)) ==> StockBounded(catalog)
      ensures old(AllPositive()) ==> AllPositive()
      ensures r.Failure? ==> lines == old(lines)
      ensures user.None? ==> r == Failure(NotLoggedIn)
      ensures user.Some? && Find(old(lines), IdIs(itemId)).None? ==> r == Failure(LineNotFound)
      ensures user.Some? && Find(old(lines), IdIs(itemId)).Some? ==>
                var i := Find(old(lines), IdIs(itemId)).value;
                var line := old(lines)[i];
                match ResolveLine(catalog, line)
                case Failure(e) => r == Failure(e)
                case Success(available) =>
                  if available <= 0 then r == Failure(OutOfStock)
                  else if quantity <= 0 then r == Success(()) && lines == Drop(old(lines), IdIs(itemId))
                  else if quantity > available then r == Failure(InsufficientStock(available))
                  else r == Success(()) && lines == old(lines)[i := line.(quantity := quantity)]
    {
      if user.None? {
        return Failure(NotLoggedIn);
      }
      var found := Find(lines, IdIs(itemId));
      if found.None? {
        return Failure(LineNotFound);
      }
      var i := found.value;
      var line := lines[i];
      var resolved := ResolveLine(catalog, line);
      if resolved.Failure? {
        return Failure(resolved.error);
      }
      var available := resolved.value;
      if available <= 0 {
        return Failure(OutOfStock);
      }
      if quantity <= 0 {
        DropKeepsUnique(lines, IdIs(itemId));
        lines := Drop(lines, IdIs(itemId));
        return Success(());
      }
      if quantity > available {
        return Failure(InsufficientStock(available));
      }
      lines := lines[i := line.(quantity := quantity)];
      r := Success(());
    }

    /** `removeFromCart`: delete the line with this id, if any. */
    method RemoveFromCart(itemId: LineId)
      requires Valid()
      modifies this
      ensures Valid()
      ensures lines == Drop(old(lines), IdIs(itemId))
    {
      DropKeepsUnique(lines, IdIs(itemId));
      lines := Drop(lines, IdIs(itemId));
    }

    /** `clearCart`: delete every line of the signed-in user; nothing without a user. */
    method ClearCart(user: Option<UserId>)
      requires Valid()
      modifies this
      ensures Valid()
      ensures user.None? ==> lines == old(lines)
      ensures user.Some? ==> lines == Drop(old(lines), UserIs(user.value))
      ensures Items(user) == [] && CartCount(user) == 0
    {
      if user.Some? {
        DropKeepsUnique(lines, UserIs(user.value));
        KeepAfterDrop(lines, UserIs(user.value));
        lines := Drop(lines, UserIs(user.value));
      }
    }
  }
}
