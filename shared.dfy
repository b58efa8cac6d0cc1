/** What the navigation bar derives from the store (components/Shared.tsx,
    `Navbar`): the cart count with its badge, and which links each menu shows. */
module Shared {
  import opened Model
  import opened Seqs
  import Cart

  /** `cart.reduce((acc, item) => acc + item.quantity, 0)`. */
  function CartCount(cart: seq<CartItem>): (count: int)
  {
    Sum(cart, Quantity)
  }

  /** The count badge on the cart icon is rendered when `cartCount > 0`. */
  predicate ShowCountBadge(cart: seq<CartItem>)
  {
    CartCount(cart) > 0
  }

  /** An empty cart counts 0; a well-formed cart counts at least one per line, so the
      badge shows exactly when the cart has a line. */
  lemma CartCountSpec(cart: seq<CartItem>)
    ensures CartCount([]) == 0
    ensures Cart.WellFormed(cart) ==> CartCount(cart) >= |cart|
    ensures Cart.WellFormed(cart) ==> (ShowCountBadge(cart) <==> cart != [])
  {
    if Cart.WellFormed(cart) {
      SumAtLeastLength(cart, Quantity);
    }
  }

  /** Every add raises the count by exactly one, whether it merges or appends. */
  lemma CartCountAddToCart(cart: seq<CartItem>, p: Product)
    requires Cart.WellFormed(cart)
    ensures CartCount(Cart.AddToCart(cart, p)) == CartCount(cart) + 1
  {
    Cart.AddToCartEffect(cart, p);
    if HasKey(cart, LineId, p.id) {
      var k :| 0 <= k < |cart| && cart[k].product.id == p.id;
      SumUpdate(cart, k, CartItem(cart[k].product, cart[k].quantity + 1), Quantity);
    } else {
      SumAppend(cart, [CartItem(p, 1)], Quantity);
      SumSingleton(CartItem(p, 1), Quantity);
    }
  }

  /** Removing a line lowers the count by that line's quantity. */
  lemma CartCountRemove(cart: seq<CartItem>, k: nat)
    requires Cart.WellFormed(cart) && k < |cart|
    ensures CartCount(Cart.RemoveFromCart(cart, cart[k].product.id)) == CartCount(cart) - cart[k].quantity
  {
    Cart.RemoveFromCartAt(cart, cart[k].product.id, k);
    SumRemoveAt(cart, k, Quantity);
  }

  // ---------------------------------------------------------------- links

  const NavPaths: seq<string> := ["/", "/shop", "/about", "/contact"]
  const CartPath := "/cart"
  const AdminPath := "/admin"

  /** The desktop menu: the page links, the cart link, and the admin panel link in admin mode. */
  function DesktopLinks(isAdminMode: bool): (paths: seq<string>)
  {
    NavPaths + [CartPath] + (if isAdminMode then [AdminPath] else [])
  }

  /** The mobile menu, when open: the page links, the dashboard link in admin mode, the cart link. */
  function MobileLinks(isAdminMode: bool, isOpen: bool): (paths: seq<string>)
  {
    if !isOpen then [] else NavPaths + (if isAdminMode then [AdminPath] else []) + [CartPath]
  }

  /** Both menus lead to the admin area exactly when admin mode is on (the mobile one when open),
      and always to the cart. */
  lemma AdminLinkSpec(isAdminMode: bool, isOpen: bool)
    ensures AdminPath in DesktopLinks(isAdminMode) <==> isAdminMode
    ensures AdminPath in MobileLinks(isAdminMode, isOpen) <==> isAdminMode && isOpen
    ensures CartPath in DesktopLinks(isAdminMode)
    ensures isOpen ==> CartPath in MobileLinks(isAdminMode, isOpen)
  {
    assert AdminPath !in NavPaths;
  }
}
