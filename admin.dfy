/**
 * The admin page's save logic (`Admin.tsx`): the variant rows of the product
 * form, their cleaning into the stored variants, the sizes, colours and stock
 * derived from them, the wholesale replacement of a product's variants, and
 * the validation of the coupon, category and hero forms.
 *
 * Numbers typed into the forms arrive already parsed: `Some(n)` for a
 * parsed value, `None` for `NaN`. Prices are integer cents.
 */
module AdminCatalog {
  import opened Common

  /** A row of the variant editor; `stock` is `parseInt` of its text. */
  datatype VariantRow = VariantRow(color: string, size: string, stock: Option<int>)

  /** A row after trimming and parsing. */
  datatype CleanVariant = CleanVariant(color: string, size: string, stock: int)

  /** A `product_variants` row as inserted. */
  datatype VariantRecord = VariantRecord(productId: nat, color: Option<string>, size: Option<string>, stock: int)

  /** The product form's fields other than stock, sizes and colours. */
  datatype ProductForm = ProductForm(
    name: string,
    description: string,
    category: string,
    price: Option<int>,
    originalPriceText: string,
    originalPrice: Option<int>,
    images: seq<string>,
    isActive: bool)

  /** A `products` row as written. */
  datatype ProductData = ProductData(
    name: string,
    description: string,
    category: string,
    price: Option<int>,
    originalPrice: Option<int>,
    stock: int,
    sizes: seq<string>,
    colors: seq<string>,
    images: seq<string>,
    isActive: bool)

  const DEFAULT_CATEGORIES: seq<string> := ["Vestidos", "Conjuntos", "Blusas", "Croppeds", "Bodys", "Calças", "Saias"]

  // ---------------------------------------------------------------------
  // Cleaning the variant rows

  /** `parseInt(text) || 0`: NaN counts as 0. */
  function StockOf(parsed: Option<int>): int
  {
    if parsed.Some? then parsed.value else 0
  }

  function CleanRow(r: VariantRow): CleanVariant
  {
    CleanVariant(Trim(r.color), Trim(r.size), StockOf(r.stock))
  }

  /** The filter of `saveProduct`: a colour or a size, and a stock of at least 0. */
  predicate Kept(c: CleanVariant)
  {
    (c.color != "" || c.size != "") && c.stock >= 0
  }

  /** `cleanedVariants`: every row trimmed and parsed, then filtered, in row order. */
  function CleanVariants(rows: seq<VariantRow>): (r: seq<CleanVariant>)
    ensures |r| <= |rows|
    ensures forall i :: 0 <= i < |r| ==> Kept(r[i])
  {
    if |rows| == 0 then []
    else
      var c := CleanRow(rows[0]);
      (if Kept(c) then [c] else []) + CleanVariants(rows[1..])
  }

  /** Every row that passes the filter, cleaned, is among the cleaned variants. */
  lemma {:induction false} KeptRowsSurvive(rows: seq<VariantRow>, i: nat)
    requires i < |rows| && Kept(CleanRow(rows[i]))
    ensures CleanRow(rows[i]) in CleanVariants(rows)
  {
    var c := CleanRow(rows[0]);
    var rest := CleanVariants(rows[1..]);
    assert CleanVariants(rows) == (if Kept(c) then [c] else []) + rest;
    if i > 0 {
      assert rows[1..][i - 1] == rows[i];
      KeptRowsSurvive(rows[1..], i - 1);
    }
  }

  /** Cleaning works row by row: cleaning a concatenation concatenates the cleanings. */
  lemma {:induction false} CleanVariantsAppend(a: seq<VariantRow>, b: seq<VariantRow>)
    ensures CleanVariants(a + b) == CleanVariants(a) + CleanVariants(b)
  {
    if |a| > 0 {
      assert (a + b)[1..] == a[1..] + b;
      CleanVariantsAppend(a[1..], b);
      var c := CleanRow(a[0]);
      AppendAssoc(if Kept(c) then [c] else [], CleanVariants(a[1..]), CleanVariants(b));
    } else {
      assert a + b == b;
    }
  }

  /** A single row is kept, cleaned, exactly when it passes the filter; with the lemma above, an order-preserving filter. */
  lemma CleanVariantsSingle(r: VariantRow)
    ensures CleanVariants([r]) == if Kept(CleanRow(r)) then [CleanRow(r)] else []
  {
    assert [r][1..] == [];
  }

  /** Every cleaned variant comes from some row. */
  lemma {:induction false} CleanVariantsFromRows(rows: seq<VariantRow>, k: nat)
    requires k < |CleanVariants(rows)|
    ensures exists i :: 0 <= i < |rows| && CleanRow(rows[i]) == CleanVariants(rows)[k]
  {
    var c := CleanRow(rows[0]);
    var rest := CleanVariants(rows[1..]);
    assert CleanVariants(rows) == (if Kept(c) then [c] else []) + rest;
    if Kept(c) && k == 0 {
      assert CleanRow(rows[0]) == CleanVariants(rows)[0];
    } else {
      var j := if Kept(c) then k - 1 else k;
      assert CleanVariants(rows)[k] == rest[j];
      CleanVariantsFromRows(rows[1..], j);
      var i :| 0 <= i < |rows[1..]| && CleanRow(rows[1..][i]) == CleanVariants(rows[1..])[j];
      assert rows[1..][i] == rows[i + 1];
    }
  }

  /** Every cleaned variant has its colour and size trimmed. */
  lemma CleanedAreTrimmed(rows: seq<VariantRow>, k: nat)
    requires k < |CleanVariants(rows)|
    ensures IsTrimmed(CleanVariants(rows)[k].color) && IsTrimmed(CleanVariants(rows)[k].size)
  {
    CleanVariantsFromRows(rows, k);
    var i :| 0 <= i < |rows| && CleanRow(rows[i]) == CleanVariants(rows)[k];
    TrimIsTrimmed(rows[i].color);
    TrimIsTrimmed(rows[i].size);
  }

  // ---------------------------------------------------------------------
  // Sizes, colours and stock

  /** `.filter(Boolean)` on strings: drop the empty ones. */
  function NonEmptyStrings(s: seq<string>): (r: seq<string>)
    ensures forall x :: x in r <==> x in s && x != ""
  {
    if |s| == 0 then []
    else (if s[0] != "" then [s[0]] else []) + NonEmptyStrings(s[1..])
  }

  function SizesOf(vs: seq<CleanVariant>): (r: seq<string>)
    ensures |r| == |vs| && forall i :: 0 <= i < |vs| ==> r[i] == vs[i].size
  {
    if |vs| == 0 then [] else [vs[0].size] + SizesOf(vs[1..])
  }

  function ColorsOf(vs: seq<CleanVariant>): (r: seq<string>)
    ensures |r| == |vs| && forall i :: 0 <= i < |vs| ==> r[i] == vs[i].color
  {
    if |vs| == 0 then [] else [vs[0].color] + ColorsOf(vs[1..])
  }

  /** `sizesArray`: the distinct non-empty sizes, in order of first occurrence. */
  function SizesArray(cleaned: seq<CleanVariant>): seq<string>
  {
    if |cleaned| > 0 then Distinct(NonEmptyStrings(SizesOf(cleaned))) else []
  }

  /** `colorsArray`: the distinct non-empty colours, in order of first occurrence. */
  function ColorsArray(cleaned: seq<CleanVariant>): seq<string>
  {
    if |cleaned| > 0 then Distinct(NonEmptyStrings(ColorsOf(cleaned))) else []
  }

  /** Each non-empty size of a cleaned variant is listed exactly once, and nothing else is. */
  lemma SizesArrayExact(cleaned: seq<CleanVariant>)
    ensures NoDuplicates(SizesArray(cleaned))
    ensures forall x :: x in SizesArray(cleaned) <==> x != "" && x in SizesOf(cleaned)
  {
  }

  /** Each non-empty colour of a cleaned variant is listed exactly once, and nothing else is. */
  lemma ColorsArrayExact(cleaned: seq<CleanVariant>)
    ensures NoDuplicates(ColorsArray(cleaned))
    ensures forall x :: x in ColorsArray(cleaned) <==> x != "" && x in ColorsOf(cleaned)
  {
  }

  /** The sizes are listed in the order they first occur among the cleaned variants' non-empty sizes. */
  lemma SizesArrayOrder(cleaned: seq<CleanVariant>, i: nat, j: nat)
    requires i < j < |SizesArray(cleaned)|
    ensures var s := NonEmptyStrings(SizesOf(cleaned));
            FirstIndex(s, SizesArray(cleaned)[i]) < FirstIndex(s, SizesArray(cleaned)[j])
  {
    DistinctFirstOccurrenceOrder(NonEmptyStrings(SizesOf(cleaned)), i, j);
  }

  /** The colours are listed in the order they first occur among the cleaned variants' non-empty colours. */
  lemma ColorsArrayOrder(cleaned: seq<CleanVariant>, i: nat, j: nat)
    requires i < j < |ColorsArray(cleaned)|
    ensures var s := NonEmptyStrings(ColorsOf(cleaned));
            FirstIndex(s, ColorsArray(cleaned)[i]) < FirstIndex(s, ColorsArray(cleaned)[j])
  {
    DistinctFirstOccurrenceOrder(NonEmptyStrings(ColorsOf(cleaned)), i, j);
  }

  /** `cleanedVariants.reduce((sum, v) => sum + v.stock, 0)`. */
  function TotalStock(vs: seq<CleanVariant>): int
  {
    if |vs| == 0 then 0 else vs[0].stock + TotalStock(vs[1..])
  }

  /** Cleaned variants never add up to a negative stock. */
  lemma {:induction false} TotalStockNonNegative(vs: seq<CleanVariant>)
    requires forall i :: 0 <= i < |vs| ==> Kept(vs[i])
    ensures TotalStock(vs) >= 0
  {
    if |vs| > 0 {
      assert forall i :: 0 <= i < |vs[1..]| ==> vs[1..][i] == vs[i + 1];
      TotalStockNonNegative(vs[1..]);
    }
  }

  /** `variantTotal`: the parsed stock of every row, kept or not, NaN counted as 0. */
  function VariantTotal(rows: seq<VariantRow>): int
  {
    if |rows| == 0 then 0 else StockOf(rows[0].stock) + VariantTotal(rows[1..])
  }

  /** When every row passes the filter, the editor's running total is the stock that will be stored. */
  lemma {:induction false} VariantTotalMatchesStored(rows: seq<VariantRow>)
    requires forall i :: 0 <= i < |rows| ==> Kept(CleanRow(rows[i]))
    ensures VariantTotal(rows) == TotalStock(CleanVariants(rows))
  {
    if |rows| > 0 {
      var c := CleanRow(rows[0]);
      var tail := rows[1..];
      assert Kept(c);
      assert CleanVariants(rows) == [c] + CleanVariants(tail);
      forall i | 0 <= i < |tail| ensures Kept(CleanRow(tail[i])) {
        assert tail[i] == rows[i + 1];
      }
      VariantTotalMatchesStored(tail);
      assert TotalStock([c] + CleanVariants(tail)) == c.stock + TotalStock(CleanVariants(tail));
    }
  }

  /** A row the filter drops still counts in the editor's total: a negative stock lowers it. */
  lemma VariantTotalCountsDroppedRows(kept: VariantRow, dropped: VariantRow)
    requires Kept(CleanRow(kept)) && StockOf(dropped.stock) < 0
    ensures VariantTotal([kept, dropped]) == StockOf(kept.stock) + StockOf(dropped.stock)
    ensures TotalStock(CleanVariants([kept, dropped])) == StockOf(kept.stock)
    ensures VariantTotal([kept, dropped]) < TotalStock(CleanVariants([kept, dropped]))
  {
    var rows := [kept, dropped];
    assert rows[1..] == [dropped] && rows[1..][1..] == [];
    assert VariantTotal(rows[1..]) == StockOf(dropped.stock) + VariantTotal(rows[1..][1..]);
    assert VariantTotal(rows) == StockOf(kept.stock) + VariantTotal(rows[1..]);
    var c := CleanRow(kept);
    assert c.stock == StockOf(kept.stock);
    assert CleanRow(dropped).stock < 0;
    CleanVariantsSingle(kept);
    CleanVariantsSingle(dropped);
    CleanVariantsAppend([kept], [dropped]);
    assert rows == [kept] + [dropped];
    assert CleanVariants(rows) == [c];
    assert [c][1..] == [];
    assert TotalStock([c]) == c.stock + TotalStock([c][1..]);
  }

  // ---------------------------------------------------------------------
  // The product row and its variants

  /**
   * `productData`: with variants, the stock is their sum and the sizes and
   * colours are derived from them; without, the stock is 0 and both lists are
   * empty. An empty original price is stored as null.
   */
  function BuildProductData(form: ProductForm, cleaned: seq<CleanVariant>): (d: ProductData)
    ensures |cleaned| == 0 ==> d.stock == 0 && d.sizes == [] && d.colors == []
    ensures |cleaned| > 0 ==> d.stock == TotalStock(cleaned)
    ensures d.sizes == SizesArray(cleaned) && d.colors == ColorsArray(cleaned)
    ensures d.originalPrice.Some? ==> form.originalPriceText != ""
    ensures form.originalPriceText != "" ==> d.originalPrice == form.originalPrice
    ensures d.name == form.name && d.description == form.description && d.category == form.category
    ensures d.price == form.price && d.images == form.images && d.isActive == form.isActive
  {
    ProductData(
      form.name, form.description, form.category, form.price,
      if form.originalPriceText != "" then form.originalPrice else None,
      if |cleaned| > 0 then TotalStock(cleaned) else 0,
      SizesArray(cleaned), ColorsArray(cleaned), form.images, form.isActive)
  }

  /** The insert payload: one record per cleaned variant, empty colour or size as null. */
  function Payload(productId: nat, cleaned: seq<CleanVariant>): (p: seq<VariantRecord>)
    ensures |p| == |cleaned|
    ensures forall i :: 0 <= i < |p| ==>
              p[i] == VariantRecord(productId, NonEmpty(cleaned[i].color), NonEmpty(cleaned[i].size), cleaned[i].stock)
  {
    if |cleaned| == 0 then []
    else [VariantRecord(productId, NonEmpty(cleaned[0].color), NonEmpty(cleaned[0].size), cleaned[0].stock)]
         + Payload(productId, cleaned[1..])
  }

  /** `delete().eq("product_id", id)`: the records of other products, in order. */
  function WithoutProduct(vs: seq<VariantRecord>, productId: nat): (r: seq<VariantRecord>)
    ensures forall v :: v in r <==> v in vs && v.productId != productId
  {
    if |vs| == 0 then []
    else (if vs[0].productId == productId then [] else [vs[0]]) + WithoutProduct(vs[1..], productId)
  }

  /** The variants a product reads back (`product_variants` filtered by product id), in order. */
  function VariantsOf(vs: seq<VariantRecord>, productId: nat): (r: seq<VariantRecord>)
    ensures forall v :: v in r <==> v in vs && v.productId == productId
  {
    if |vs| == 0 then []
    else (if vs[0].productId == productId then [vs[0]] else []) + VariantsOf(vs[1..], productId)
  }

  lemma {:induction false} VariantsOfAppend(a: seq<VariantRecord>, b: seq<VariantRecord>, productId: nat)
    ensures VariantsOf(a + b, productId) == VariantsOf(a, productId) + VariantsOf(b, productId)
  {
    if |a| > 0 {
      assert (a + b)[1..] == a[1..] + b;
      VariantsOfAppend(a[1..], b, productId);
      AppendAssoc(if a[0].productId == productId then [a[0]] else [], VariantsOf(a[1..], productId), VariantsOf(b, productId));
    } else {
      assert a + b == b;
    }
  }

  lemma {:induction false} VariantsOfAll(p: seq<VariantRecord>, productId: nat)
    requires forall i :: 0 <= i < |p| ==> p[i].productId == productId
    ensures VariantsOf(p, productId) == p
  {
    if |p| > 0 {
      VariantsOfAll(p[1..], productId);
    }
  }

  /**
   * After the old variants are deleted and the payload inserted, the product
   * reads back exactly the payload; the other products keep theirs.
   */
  lemma {:induction false} ReplaceVariants(vs: seq<VariantRecord>, productId: nat, cleaned: seq<CleanVariant>)
    ensures VariantsOf(WithoutProduct(vs, productId) + Payload(productId, cleaned), productId)
            == Payload(productId, cleaned)
    ensures forall other :: other != productId ==>
              VariantsOf(WithoutProduct(vs, productId) + Payload(productId, cleaned), other) == VariantsOf(vs, other)
  {
    var rest := WithoutProduct(vs, productId);
    var p := Payload(productId, cleaned);
    VariantsOfAppend(rest, p, productId);
    VariantsOfAll(p, productId);
    assert VariantsOf(rest, productId) == [] by {
      NoneOfProduct(rest, productId);
    }
    forall other | other != productId
      ensures VariantsOf(rest + p, other) == VariantsOf(vs, other)
    {
      VariantsOfAppend(rest, p, other);
      NoneOfProduct(p, other);
      WithoutOtherProduct(vs, productId, other);
    }
  }

  lemma {:induction false} NoneOfProduct(vs: seq<VariantRecord>, productId: nat)
    requires forall v :: v in vs ==> v.productId != productId
    ensures VariantsOf(vs, productId) == []
  {
    if |vs| > 0 {
      assert vs[0] in vs;
      assert forall v :: v in vs[1..] ==> v in vs;
      NoneOfProduct(vs[1..], productId);
    }
  }

  lemma {:induction false} WithoutOtherProduct(vs: seq<VariantRecord>, productId: nat, other: nat)
    requires other != productId
    ensures VariantsOf(WithoutProduct(vs, productId), other) == VariantsOf(vs, other)
  {
    if |vs| > 0 {
      var head := if vs[0].productId == productId then [] else [vs[0]];
      VariantsOfAppend(head, WithoutProduct(vs[1..], productId), other);
      WithoutOtherProduct(vs[1..], productId, other);
    }
  }

  /** The stored variant rows of a product are the cleaned rows one for one, empty colour or size as null. */
  lemma PayloadMatchesCleaned(productId: nat, cleaned: seq<CleanVariant>, i: nat)
    requires i < |cleaned| && Kept(cleaned[i])
    ensures Payload(productId, cleaned)[i].color.None? <==> cleaned[i].color == ""
    ensures Payload(productId, cleaned)[i].size.None? <==> cleaned[i].size == ""
    ensures Payload(productId, cleaned)[i].color.Some? || Payload(productId, cleaned)[i].size.Some?
  {
  }

  // ---------------------------------------------------------------------
  // Categories, coupons and the hero

  /** `productCategories`: the loaded names, or the default list while none are loaded. */
  function ProductCategories(loaded: seq<string>): (r: seq<string>)
    ensures |r| > 0
    ensures |loaded| > 0 ==> r == loaded
    ensures |loaded| == 0 ==> r == DEFAULT_CATEGORIES
  {
    if |loaded| > 0 then loaded else DEFAULT_CATEGORIES
  }

  datatype CategoryForm = CategoryForm(name: string, imageUrl: string, linkUrl: string, displayOrder: Option<int>, isActive: bool)
  datatype CategoryPayload = CategoryPayload(name: string, imageUrl: Option<string>, linkUrl: Option<string>, displayOrder: int, isActive: bool)

  /** `saveCategory`: a name is required; empty links become null and a missing or NaN order becomes 0. */
  function SaveCategory(form: CategoryForm): (r: Result<CategoryPayload, string>)
    ensures r.Failure? <==> form.name == ""
    ensures r.Success? ==> r.value.name == form.name && r.value.isActive == form.isActive
    ensures r.Success? ==> r.value.imageUrl == NonEmpty(form.imageUrl) && r.value.linkUrl == NonEmpty(form.linkUrl)
    ensures r.Success? && form.displayOrder.None? ==> r.value.displayOrder == 0
    ensures r.Success? && form.displayOrder.Some? ==> r.value.displayOrder == form.displayOrder.value
  {
    if form.name == "" then Failure("Nome obrigatório")
    else Success(CategoryPayload(form.name, NonEmpty(form.imageUrl), NonEmpty(form.linkUrl),
                                 if form.displayOrder.Some? then form.displayOrder.value else 0, form.isActive))
  }

  predicate IsLowerAscii(c: char)
  {
    'a' <= c <= 'z'
  }

  /** `toUpperCase` on the ASCII letters. */
  function UpperAscii(s: string): (r: string)
    ensures |r| == |s|
    ensures forall i :: 0 <= i < |s| ==> !IsLowerAscii(r[i])
    ensures forall i :: 0 <= i < |s| && !IsLowerAscii(s[i]) ==> r[i] == s[i]
    ensures forall i :: 0 <= i < |s| && IsLowerAscii(s[i]) ==> r[i] as int == s[i] as int - 32
  {
    if |s| == 0 then ""
    else [if IsLowerAscii(s[0]) then (s[0] as int - 32) as char else s[0]] + UpperAscii(s[1..])
  }

  /** Upper-casing an upper-cased code changes nothing. */
  lemma UpperAsciiIdempotent(s: string)
    ensures UpperAscii(UpperAscii(s)) == UpperAscii(s)
  {
  }

  datatype CouponForm = CouponForm(
    code: string, kind: string, value: Option<int>,
    minOrderText: string, minOrderValue: Option<int>,
    expiresAt: string, isActive: bool)

  datatype CouponPayload = CouponPayload(
    code: string, kind: string, value: int, minOrderValue: Option<int>,
    expiresAt: Option<string>, isActive: bool)

  /**
   * `saveCoupon`: a code is required and is stored upper-cased; an
   * unparseable value is 0; an empty minimum or expiry is null.
   */
  function SaveCoupon(form: CouponForm): (r: Result<CouponPayload, string>)
    ensures r.Failure? <==> form.code == ""
    ensures r.Success? ==> r.value.code == UpperAscii(form.code) && r.value.code != ""
    ensures r.Success? ==> r.value.value == StockOf(form.value)
    ensures r.Success? ==> r.value.kind == form.kind && r.value.isActive == form.isActive
    ensures r.Success? ==> (form.minOrderText == "" ==> r.value.minOrderValue.None?)
    ensures r.Success? ==> (form.minOrderText != "" ==> r.value.minOrderValue == form.minOrderValue)
    ensures r.Success? ==> (r.value.expiresAt.None? <==> form.expiresAt == "")
    ensures r.Success? && form.expiresAt != "" ==> r.value.expiresAt == Some(form.expiresAt)
  {
    if form.code == "" then Failure("Código é obrigatório")
    else Success(CouponPayload(
      UpperAscii(form.code), form.kind, StockOf(form.value),
      if form.minOrderText != "" then form.minOrderValue else None,
      NonEmpty(form.expiresAt), form.isActive))
  }

  datatype HeroForm = HeroForm(imageUrl: string, title: string, subtitle: string, ctaText: string, ctaLink: string, isActive: bool)

  /** Update the active hero row, or insert one at display order 0. */
  datatype HeroWrite = UpdateHero(id: nat, fields: HeroForm) | InsertHero(fields: HeroForm, displayOrder: int)

  /** `saveHeroSettings`: an image is required; the active hero row is updated if there is one. */
  function SaveHero(form: HeroForm, activeHero: Option<nat>): (r: Result<HeroWrite, string>)
    ensures r.Failure? <==> form.imageUrl == ""
    ensures r.Success? ==> r.value.fields == form
    ensures r.Success? ==> (r.value.UpdateHero? <==> activeHero.Some?)
    ensures r.Success? && r.value.UpdateHero? ==> r.value.id == activeHero.value
    ensures r.Success? && r.value.InsertHero? ==> r.value.displayOrder == 0
  {
    if form.imageUrl == "" then Failure("Imagem é obrigatória")
    else if activeHero.Some? then Success(UpdateHero(activeHero.value, form))
    else Success(InsertHero(form, 0))
  }

  // ---------------------------------------------------------------------
  // The variant editor and the product tables

  /** The variant rows of the product dialog, edited by index. */
  class VariantEditor {
    var rows: seq<VariantRow>

    constructor ()
      ensures rows == []
    {
      rows := [];
    }

    /** The running total shown under the rows. */
    function Total(): int
      reads this
    {
      VariantTotal(rows)
    }

    /** `openEditProduct`: one row per stored variant, null colour or size as "". */
    method Load(stored: seq<VariantRecord>)
      modifies this
      ensures |rows| == |stored|
      ensures forall i :: 0 <= i < |stored| ==>
                rows[i] == VariantRow(OptOrElse(stored[i].color, ""), OptOrElse(stored[i].size, ""), Some(stored[i].stock))
    {
      var loaded: seq<VariantRow> := [];
      var i := 0;
      while i < |stored|
        invariant 0 <= i <= |stored| && |loaded| == i
        invariant forall k :: 0 <= k < i ==>
                    loaded[k] == VariantRow(OptOrElse(stored[k].color, ""), OptOrElse(stored[k].size, ""), Some(stored[k].stock))
      {
        var v := stored[i];
        loaded := loaded + [VariantRow(OptOrElse(v.color, ""), OptOrElse(v.size, ""), Some(v.stock))];
        i := i + 1;
      }
      rows := loaded;
    }

    /** "Adicionar variação": an empty row at the end. */
    method AddRow()
      modifies this
      ensures rows == old(rows) + [VariantRow("", "", None)]
      ensures Total() == old(Total())
    {
      VariantTotalAppend(rows, VariantRow("", "", None));
      rows := rows + [VariantRow("", "", None)];
    }

    /** Edit one field of the row at `idx`; an index past the end changes nothing. */
    method SetColor(idx: nat, color: string)
      modifies this
      ensures idx < |old(rows)| ==> rows == old(rows)[idx := old(rows)[idx].(color := color)]
      ensures idx >= |old(rows)| ==> rows == old(rows)
      ensures Total() == old(Total())
    {
      if idx < |rows| {
        VariantTotalUpdate(rows, idx, rows[idx].(color := color));
        rows := rows[idx := rows[idx].(color := color)];
      }
    }

    method SetSize(idx: nat, size: string)
      modifies this
      ensures idx < |old(rows)| ==> rows == old(rows)[idx := old(rows)[idx].(size := size)]
      ensures idx >= |old(rows)| ==> rows == old(rows)
      ensures Total() == old(Total())
    {
      if idx < |rows| {
        VariantTotalUpdate(rows, idx, rows[idx].(size := size));
        rows := rows[idx := rows[idx].(size := size)];
      }
    }

    method SetStock(idx: nat, stock: Option<int>)
      modifies this
      ensures idx < |old(rows)| ==> rows == old(rows)[idx := old(rows)[idx].(stock := stock)]
      ensures idx < |old(rows)| ==> Total() == old(Total()) - StockOf(old(rows)[idx].stock) + StockOf(stock)
      ensures idx >= |old(rows)| ==> rows == old(rows)
    {
      if idx < |rows| {
        VariantTotalUpdate(rows, idx, rows[idx].(stock := stock));
        rows := rows[idx := rows[idx].(stock := stock)];
      }
    }

    /** The trash button: drop the row at `idx`, keeping the others in order. */
    method RemoveRow(idx: nat)
      modifies this
      ensures idx < |old(rows)| ==> rows == old(rows)[..idx] + old(rows)[idx + 1..]
      ensures idx < |old(rows)| ==> Total() == old(Total()) - StockOf(old(rows)[idx].stock)
      ensures idx >= |old(rows)| ==> rows == old(rows)
    {
      if idx < |rows| {
        var before := rows;
        VariantTotalConcat(before[..idx], before[idx..]);
        VariantTotalConcat(before[..idx], before[idx + 1..]);
        assert before[idx..] == [before[idx]] + before[idx + 1..];
        VariantTotalConcat([before[idx]], before[idx + 1..]);
        assert before == before[..idx] + before[idx..];
        rows := before[..idx] + before[idx + 1..];
      }
    }

    /** "Limpar": no rows. */
    method Clear()
      modifies this
      ensures rows == [] && Total() == 0
    {
      rows := [];
    }
  }

  lemma {:induction false} VariantTotalConcat(a: seq<VariantRow>, b: seq<VariantRow>)
    ensures VariantTotal(a + b) == VariantTotal(a) + VariantTotal(b)
  {
    if |a| > 0 {
      assert (a + b)[1..] == a[1..] + b;
      VariantTotalConcat(a[1..], b);
    } else {
      assert a + b == b;
    }
  }

  lemma VariantTotalAppend(rows: seq<VariantRow>, r: VariantRow)
    ensures VariantTotal(rows + [r]) == VariantTotal(rows) + StockOf(r.stock)
  {
    VariantTotalConcat(rows, [r]);
    assert [r][1..] == [];
  }

  /** Replacing one row moves the total by the change in that row's parsed stock. */
  lemma {:induction false} VariantTotalUpdate(rows: seq<VariantRow>, idx: nat, r: VariantRow)
    requires idx < |rows|
    ensures VariantTotal(rows[idx := r]) == VariantTotal(rows) - StockOf(rows[idx].stock) + StockOf(r.stock)
  {
    if idx > 0 {
      assert rows[idx := r][1..] == rows[1..][idx - 1 := r];
      VariantTotalUpdate(rows[1..], idx - 1, r);
    } else {
      assert rows[idx := r][1..] == rows[1..];
    }
  }

  /** The `products` and `product_variants` tables as the admin page writes them. */
  class ProductStore {
    var products: map<nat, ProductData>
    var variants: seq<VariantRecord>
    var nextId: nat

    ghost predicate Valid()
      reads this
    {
      forall id :: id in products ==> id < nextId
    }

    constructor ()
      ensures Valid() && products == map[] && variants == [] && nextId == 0
    {
      products := map[];
      variants := [];
      nextId := 0;
    }

    /** The product row write of `saveProduct`: update the edited row if it exists, or insert a new one. */
    method WriteProduct(editing: Option<nat>, data: ProductData) returns (id: nat)
      requires Valid()
      modifies this
      ensures Valid()
      ensures variants == old(variants)
      ensures editing.Some? ==> id == editing.value && nextId == old(nextId)
      ensures editing.None? ==> id == old(nextId) && id !in old(products) && nextId == old(nextId) + 1
      ensures editing.None? ==> products == old(products)[id := data]
      ensures editing.Some? && id in old(products) ==> products == old(products)[id := data]
      ensures editing.Some? && id !in old(products) ==> products == old(products)
    {
      if editing.Some? {
        id := editing.value;
        if id in products {
          products := products[id := data];
        }
      } else {
        id := nextId;
        products := products[id := data];
        nextId := nextId + 1;
      }
    }

    /**
     * The variant write of `saveProduct`: delete the product's variants, then
     * insert the cleaned ones; a failed insert leaves the product without any.
     */
    method WriteVariants(id: nat, cleaned: seq<CleanVariant>, insertFails: bool) returns (ok: bool)
      requires Valid()
      modifies this
      ensures Valid()
      ensures products == old(products) && nextId == old(nextId)
      ensures ok == !(|cleaned| > 0 && insertFails)
      ensures variants == WithoutProduct(old(variants), id) + (if ok then Payload(id, cleaned) else [])
    {
      var remaining := WithoutProduct(variants, id);
      ok := !(|cleaned| > 0 && insertFails);
      if ok {
        variants := remaining + Payload(id, cleaned);
      } else {
        variants := remaining + [];
      }
    }

    /**
     * `saveProduct`: write the product row (update when editing, insert
     * otherwise), then delete the product's variants and insert the cleaned
     * ones. A failed product write stops everything; a failed variant insert
     * leaves the product without variants. The result says whether the save
     * succeeded.
     */
    method SaveProduct(editing: Option<nat>, form: ProductForm, rows: seq<VariantRow>,
                       productWriteFails: bool, variantInsertFails: bool) returns (ok: bool, id: nat)
      requires Valid()
      modifies this
      ensures Valid()
      ensures productWriteFails ==> !ok && products == old(products) && variants == old(variants)
      ensures !productWriteFails && editing.Some? ==> id == editing.value && nextId == old(nextId)
      ensures !productWriteFails && editing.None? ==> id == old(nextId) && id !in old(products) && nextId == old(nextId) + 1
      ensures !productWriteFails && editing.None? ==>
                products == old(products)[id := BuildProductData(form, CleanVariants(rows))]
      ensures !productWriteFails && editing.Some? && id in old(products) ==>
                products == old(products)[id := BuildProductData(form, CleanVariants(rows))]
      ensures !productWriteFails && editing.Some? && id !in old(products) ==> products == old(products)
      ensures !productWriteFails ==> ok == !(|CleanVariants(rows)| > 0 && variantInsertFails)
      ensures !productWriteFails ==>
                variants == WithoutProduct(old(variants), id) + (if ok then Payload(id, CleanVariants(rows)) else [])
    {
      if productWriteFails {
        return false, 0;
      }
      var cleaned := CleanVariants(rows);
      id := WriteProduct(editing, BuildProductData(form, cleaned));
      ok := WriteVariants(id, cleaned, variantInsertFails);
    }
  }
}
