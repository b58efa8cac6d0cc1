/** What the public pages derive from the store (pages/PublicPages.tsx): the
    home page's featured products, the shop's filter options and filtered
    list, and the cart page's totals and quantity buttons. */
module PublicPages {
  import opened Model
  import opened Seqs
  import Cart
  import Store

  // ---------------------------------------------------------------- home page

  /** How many featured products the home page shows. */
  const FeaturedLimit := 3

  function IsFeatured(p: Product): bool
  {
    p.featured
  }

  /** `products.filter(p => p.featured).slice(0, 3)`. */
  function Featured(products: seq<Product>): (shown: seq<Product>)
    ensures |shown| <= FeaturedLimit
  {
    var all := Filter(products, IsFeatured);
    if |all| <= FeaturedLimit then all else all[..FeaturedLimit]
  }

  /** At most three products, all featured, in catalog order; a featured product is
      left out only when three are already shown. */
  lemma FeaturedSpec(products: seq<Product>)
    ensures |Featured(products)| <= FeaturedLimit
    ensures forall i :: 0 <= i < |Featured(products)| ==> Featured(products)[i].featured
    ensures SubsequenceOf(Featured(products), products)
    ensures forall p :: p in products && p.featured && p !in Featured(products) ==>
      |Featured(products)| == FeaturedLimit
  {
    var all := Filter(products, IsFeatured);
    FilterAllKept(products, IsFeatured);
    FilterIsSubsequence(products, IsFeatured);
    FilterMembers(products, IsFeatured);
    if |all| > FeaturedLimit {
      PrefixSubsequence(all, products, FeaturedLimit);
      forall i | 0 <= i < FeaturedLimit ensures all[..FeaturedLimit][i].featured {
        assert all[..FeaturedLimit][i] == all[i];
      }
    }
  }

  /** The shown products are the first featured ones of the catalog: with unique ids, a
      featured product that comes before a shown one is shown too. */
  lemma FeaturedAreFirst(products: seq<Product>)
    requires UniqueKeys(products, ProductId)
    ensures forall i, j ::
      0 <= i < j < |products| && products[i].featured && products[j] in Featured(products) ==>
        products[i] in Featured(products)
  {
    var all := Filter(products, IsFeatured);
    var shown := Featured(products);
    assert shown == all[..|shown|];
    forall i, j | 0 <= i < j < |products| && products[i].featured && products[j] in shown
      ensures products[i] in shown
    {
      assert products == products[..j] + products[j..];
      FilterAppend(products[..j], products[j..], IsFeatured);
      var before := Filter(products[..j], IsFeatured);
      assert all == before + Filter(products[j..], IsFeatured);
      FilterMembers(products[..j], IsFeatured);
      // products[j] is not among the featured products before it, since ids are unique
      assert products[j] !in before;
      var t :| 0 <= t < |shown| && shown[t] == products[j];
      assert all[t] == products[j];
      assert |before| <= t;
      assert products[i] in before by {
        assert products[..j][i] == products[i];
      }
      var s :| 0 <= s < |before| && before[s] == products[i];
      assert shown[s] == all[s] == products[i];
    }
  }

  // ---------------------------------------------------------------- shop page

  /** The filter value that stands for "no restriction". */
  const AnyOption := "all"

  function BrandOf(p: Product): string
  {
    p.brand
  }

  function SizeOf(p: Product): string
  {
    p.size
  }

  /** `products.map(f)`. */
  function MapProducts(products: seq<Product>, f: Product -> string): (r: seq<string>)
    ensures |r| == |products|
  {
    seq(|products|, i requires 0 <= i < |products| => f(products[i]))
  }

  /** The brand radio buttons: `Array.from(new Set(products.map(p => p.brand)))`. */
  function Brands(products: seq<Product>): (options: seq<string>)
  {
    Distinct(MapProducts(products, BrandOf))
  }

  /** The size buttons: `Array.from(new Set(products.map(p => p.size)))`. */
  function Sizes(products: seq<Product>): (options: seq<string>)
  {
    Distinct(MapProducts(products, SizeOf))
  }

  function Matches(brand: string, size: string): Product -> bool
  {
    (p: Product) => (brand == AnyOption || p.brand == brand) && (size == AnyOption || p.size == size)
  }

  /** The products the shop grid shows for the selected brand and size. */
  function FilterProducts(products: seq<Product>, brand: string, size: string): (shown: seq<Product>)
    ensures |shown| <= |products|
  {
    Filter(products, Matches(brand, size))
  }

  /** A value occurs in `MapProducts(products, f)` exactly when some product maps to it. */
  lemma OptionsOf(products: seq<Product>, f: Product -> string)
    ensures NoDuplicates(Distinct(MapProducts(products, f)))
    ensures forall v :: v in Distinct(MapProducts(products, f)) <==>
      exists i :: 0 <= i < |products| && f(products[i]) == v
  {
    var values := MapProducts(products, f);
    DistinctSpec(values);
    forall v ensures v in values <==> exists i :: 0 <= i < |products| && f(products[i]) == v {
      if v in values {
        var i :| 0 <= i < |values| && values[i] == v;
        assert f(products[i]) == v;
      }
      if exists i :: 0 <= i < |products| && f(products[i]) == v {
        var i :| 0 <= i < |products| && f(products[i]) == v;
        assert values[i] == v;
      }
    }
  }

  /** Each option list names every product's brand (size) once and nothing else. */
  lemma OptionsSpec(products: seq<Product>)
    ensures NoDuplicates(Brands(products)) && NoDuplicates(Sizes(products))
    ensures forall i :: 0 <= i < |products| ==> products[i].brand in Brands(products)
    ensures forall i :: 0 <= i < |products| ==> products[i].size in Sizes(products)
    ensures forall b :: b in Brands(products) ==> exists i :: 0 <= i < |products| && products[i].brand == b
    ensures forall s :: s in Sizes(products) ==> exists i :: 0 <= i < |products| && products[i].size == s
  {
    OptionsOf(products, BrandOf);
    OptionsOf(products, SizeOf);
    forall i | 0 <= i < |products|
      ensures products[i].brand in Brands(products) && products[i].size in Sizes(products)
    {
      assert BrandOf(products[i]) == products[i].brand;
      assert SizeOf(products[i]) == products[i].size;
    }
  }

  /** With both filters on "all" the shop shows the whole catalog. */
  lemma FilterAllShowsCatalog(products: seq<Product>)
    ensures FilterProducts(products, AnyOption, AnyOption) == products
  {
    FilterKeepsAll(products, Matches(AnyOption, AnyOption));
  }

  /** The grid shows exactly the catalog's products that match both selections, in catalog order. */
  lemma FilterProductsSpec(products: seq<Product>, brand: string, size: string)
    ensures SubsequenceOf(FilterProducts(products, brand, size), products)
    ensures forall p :: p in FilterProducts(products, brand, size) <==>
      p in products && (brand == AnyOption || p.brand == brand) && (size == AnyOption || p.size == size)
  {
    FilterIsSubsequence(products, Matches(brand, size));
    FilterMembers(products, Matches(brand, size));
  }

  /** Picking any offered brand, with every size, never shows the "no products" message. */
  lemma OfferedBrandNonEmpty(products: seq<Product>, brand: string)
    requires brand in Brands(products)
    ensures FilterProducts(products, brand, AnyOption) != []
  {
    OptionsSpec(products);
    var i :| 0 <= i < |products| && products[i].brand == brand;
    FilterProductsSpec(products, brand, AnyOption);
    assert products[i] in FilterProducts(products, brand, AnyOption);
  }

  // ---------------------------------------------------------------- cart page

  /** Shipping is free above 60.00 and otherwise 5.95 (both in cents). */
  const FreeShippingAbove := 6000
  const ShippingFee := 595

  function Shipping(subtotal: int): (fee: int)
  {
    if subtotal > FreeShippingAbove then 0 else ShippingFee
  }

  /** The total the cart page shows: subtotal plus shipping. */
  function PageTotal(cart: seq<CartItem>): (total: int)
  {
    Cart.Subtotal(cart) + Shipping(Cart.Subtotal(cart))
  }

  ghost predicate NonNegativePrices(cart: seq<CartItem>)
  {
    forall i :: 0 <= i < |cart| ==> cart[i].product.price >= 0
  }

  /** Adding a product never raises the subtotal's shipping charge: once shipping is free it
      stays free. */
  lemma FreeShippingKeptOnAdd(cart: seq<CartItem>, p: Product)
    requires Cart.WellFormed(cart) && NonNegativePrices(cart) && p.price >= 0
    ensures Cart.Subtotal(Cart.AddToCart(cart, p)) >= Cart.Subtotal(cart)
    ensures Shipping(Cart.Subtotal(cart)) == 0 ==> Shipping(Cart.Subtotal(Cart.AddToCart(cart, p))) == 0
  {
    Cart.AddToCartSubtotal(cart, p);
    if HasKey(cart, LineId, p.id) {
      var k :| 0 <= k < |cart| && LineId(cart[k]) == p.id;
      assert cart[k].product.price >= 0;
    }
  }

  /** With non-negative prices, removing a line never raises the subtotal. */
  lemma RemoveNeverRaisesSubtotal(cart: seq<CartItem>, id: string)
    requires Cart.WellFormed(cart) && NonNegativePrices(cart)
    ensures Cart.Subtotal(Cart.RemoveFromCart(cart, id)) <= Cart.Subtotal(cart)
  {
    if HasKey(cart, LineId, id) {
      var k :| 0 <= k < |cart| && LineId(cart[k]) == id;
      Cart.RemoveFromCartAt(cart, id, k);
      SumRemoveAt(cart, k, LineTotal);
      var price, quantity := cart[k].product.price, cart[k].quantity;
      assert price >= 0 && quantity >= 1;
      assert LineTotal(cart[k]) == price * quantity >= 0;
    } else {
      Cart.RemoveFromCartEffect(cart, id);
    }
  }

  /** Removing a line never lowers the subtotal's shipping charge: once charged it stays charged. */
  lemma ShippingChargedOnRemove(cart: seq<CartItem>, id: string)
    requires Cart.WellFormed(cart) && NonNegativePrices(cart)
    ensures Cart.Subtotal(Cart.RemoveFromCart(cart, id)) <= Cart.Subtotal(cart)
    ensures Shipping(Cart.Subtotal(cart)) == ShippingFee ==>
      Shipping(Cart.Subtotal(Cart.RemoveFromCart(cart, id))) == ShippingFee
  {
    RemoveNeverRaisesSubtotal(cart, id);
  }

  /** The checkout form's submit (`handleSubmit`), which only exists while the cart has a line:
      the order placed stores the subtotal, and the total the page showed is that plus shipping. */
  method SubmitCheckout(store: Store.StoreState, orderId: string, name: string, email: string, date: string)
    requires store.Valid() && store.cart != []
    requires !HasKey(store.orders, OrderId, orderId)
    modifies store`orders, store`cart
    ensures store.Valid()
    ensures |store.orders| == |old(store.orders)| + 1 && store.orders[1..] == old(store.orders)
    ensures store.orders[0].items == old(store.cart) != []
    ensures store.orders[0].total + Shipping(store.orders[0].total) == PageTotal(old(store.cart))
    ensures store.orders[0].total < PageTotal(old(store.cart)) <==>
      Cart.Subtotal(old(store.cart)) <= FreeShippingAbove
    ensures store.cart == []
  {
    store.PlaceOrder(orderId, name, email, date);
  }

  /** The minus button of line k: disabled at quantity 1 or less, otherwise one less. */
  function PressMinus(cart: seq<CartItem>, k: nat): (r: seq<CartItem>)
    requires k < |cart|
    ensures |r| == |cart|
  {
    if cart[k].quantity <= 1 then cart
    else Cart.UpdateQuantity(cart, cart[k].product.id, cart[k].quantity - 1)
  }

  /** The plus button of line k: one more. */
  function PressPlus(cart: seq<CartItem>, k: nat): (r: seq<CartItem>)
    requires k < |cart|
    ensures |r| == |cart|
  {
    Cart.UpdateQuantity(cart, cart[k].product.id, cart[k].quantity + 1)
  }

  /** The buttons keep the cart well formed and only move line k's quantity, never below 1. */
  lemma QuantityButtonsSpec(cart: seq<CartItem>, k: nat)
    requires Cart.WellFormed(cart) && k < |cart|
    ensures Cart.WellFormed(PressMinus(cart, k)) && Cart.WellFormed(PressPlus(cart, k))
    ensures PressPlus(cart, k) == cart[k := cart[k].(quantity := cart[k].quantity + 1)]
    ensures cart[k].quantity <= 1 ==> PressMinus(cart, k) == cart
    ensures cart[k].quantity > 1 ==>
      PressMinus(cart, k) == cart[k := cart[k].(quantity := cart[k].quantity - 1)]
  {
    Cart.UpdateQuantityEffect(cart, cart[k].product.id, cart[k].quantity + 1);
    Cart.UpdateQuantityEffect(cart, cart[k].product.id, cart[k].quantity - 1);
  }

  /** Even if the disabled minus button fired at quantity 1, the quantity floor ignores it. */
  lemma MinusAtOneIgnored(cart: seq<CartItem>, k: nat)
    requires Cart.WellFormed(cart) && k < |cart| && cart[k].quantity == 1
    ensures Cart.UpdateQuantity(cart, cart[k].product.id, cart[k].quantity - 1) == cart
  {
  }
}
