/**
 * The new-arrivals page (`Novidades.tsx`): the badge on each of the latest
 * products, chosen from its discount and its place in the list.
 */
module NewArrivals {
  import opened Common
  import ProductPage

  datatype Variant = Default | Secondary | Destructive

  datatype Badge = Badge(text: string, variant: Variant)

  /** A listed product: its price and original price, in cents. */
  datatype Listed = Listed(price: int, originalPrice: Option<int>)

  const NEW: string := "Novo"
  const FEATURED: string := "Destaque"

  /** `getProductBadge`: a discount wins; otherwise the first three are new and the rest featured. */
  function ProductBadge(p: Listed, index: int): (b: Badge)
    ensures b.text == NEW || b.text == FEATURED
    ensures b.text == NEW ==> index < 3
    ensures ProductPage.HasDiscount(p.originalPrice, p.price) ==> b == Badge(FEATURED, Destructive)
    ensures !ProductPage.HasDiscount(p.originalPrice, p.price) && index < 3 ==> b == Badge(NEW, Default)
    ensures !ProductPage.HasDiscount(p.originalPrice, p.price) && index >= 3 ==> b == Badge(FEATURED, Secondary)
  {
    if ProductPage.HasDiscount(p.originalPrice, p.price) then Badge(FEATURED, Destructive)
    else if index < 3 then Badge(NEW, Default)
    else Badge(FEATURED, Secondary)
  }

  /**
   * The new-arrivals page marks a product with the destructive badge exactly
   * when its product page shows a discount, wherever it is listed.
   */
  lemma DestructiveIffDiscount(p: Listed, index: int)
    ensures ProductBadge(p, index).variant == Destructive <==> ProductPage.HasDiscount(p.originalPrice, p.price)
  {
  }

  /** The badges of a list whose first product sits at `offset`. */
  function BadgesFrom(products: seq<Listed>, offset: nat): (r: seq<Badge>)
    ensures |r| == |products|
    ensures forall i :: 0 <= i < |products| ==> r[i] == ProductBadge(products[i], offset + i)
  {
    if |products| == 0 then [] else [ProductBadge(products[0], offset)] + BadgesFrom(products[1..], offset + 1)
  }

  /** `products.map((product, index) => getProductBadge(product, index))`. */
  function Badges(products: seq<Listed>): (r: seq<Badge>)
    ensures |r| == |products|
    ensures forall i :: 0 <= i < |products| ==> r[i] == ProductBadge(products[i], i)
  {
    BadgesFrom(products, 0)
  }

  function CountNew(badges: seq<Badge>): nat
  {
    if |badges| == 0 then 0 else (if badges[0].text == NEW then 1 else 0) + CountNew(badges[1..])
  }

  /** Past the third place no badge says "Novo". */
  lemma {:induction false} NoNewFrom(products: seq<Listed>, offset: nat)
    requires offset >= 3
    ensures CountNew(BadgesFrom(products, offset)) == 0
  {
    if |products| > 0 {
      NoNewFrom(products[1..], offset + 1);
      assert BadgesFrom(products, offset)[1..] == BadgesFrom(products[1..], offset + 1);
    }
  }

  /** From place `offset` on, at most `3 - offset` badges say "Novo". */
  lemma {:induction false} FewNewFrom(products: seq<Listed>, offset: nat)
    requires offset <= 3
    ensures CountNew(BadgesFrom(products, offset)) <= 3 - offset
  {
    if |products| > 0 {
      var b := BadgesFrom(products, offset);
      assert b[1..] == BadgesFrom(products[1..], offset + 1);
      if offset < 3 {
        FewNewFrom(products[1..], offset + 1);
      } else {
        NoNewFrom(products[1..], offset + 1);
      }
    }
  }

  /** However long the list, at most three products are shown as new. */
  lemma AtMostThreeNew(products: seq<Listed>)
    ensures CountNew(Badges(products)) <= 3
  {
    FewNewFrom(products, 0);
  }

  /** Without discounts, the first three products are exactly the new ones. */
  lemma NewIffFirstThree(products: seq<Listed>, i: nat)
    requires i < |products|
    requires !ProductPage.HasDiscount(products[i].originalPrice, products[i].price)
    ensures Badges(products)[i].text == NEW <==> i < 3
  {
  }
}
