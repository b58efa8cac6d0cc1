/** The cart lists that the store's cart mutators compute from the previous
    cart (store/StoreContext.tsx, `addToCart` to `clearCart`), and the
    subtotal that the cart page and checkout both compute. */
module Cart {
  import opened Model
  import opened Seqs

  /** The cart invariant: one line per product id, and every quantity at least 1. */
  ghost predicate WellFormed(cart: seq<CartItem>)
  {
    (forall i :: 0 <= i < |cart| ==> cart[i].quantity >= 1) && UniqueKeys(cart, LineId)
  }

  /** The `map` that bumps the quantity of every line with the given id. */
  function Increment(cart: seq<CartItem>, id: string): (r: seq<CartItem>)
    ensures |r| == |cart|
  {
    seq(|cart|, i requires 0 <= i < |cart| =>
      if cart[i].product.id == id then cart[i].(quantity := cart[i].quantity + 1) else cart[i])
  }

  /** `addToCart`: merge into an existing line, or append a fresh line with quantity 1. */
  function AddToCart(cart: seq<CartItem>, p: Product): (r: seq<CartItem>)
    ensures |cart| <= |r| <= |cart| + 1
  {
    if HasKey(cart, LineId, p.id) then Increment(cart, p.id) else cart + [CartItem(p, 1)]
  }

  function OtherLine(id: string): CartItem -> bool
  {
    (item: CartItem) => item.product.id != id
  }

  /** `removeFromCart`: `prev.filter(item => item.id !== id)`. */
  function RemoveFromCart(cart: seq<CartItem>, id: string): (r: seq<CartItem>)
    ensures |r| <= |cart|
  {
    Filter(cart, OtherLine(id))
  }

  /** `updateCartQuantity`: ignored below 1, otherwise sets the quantity of the lines with that id. */
  function UpdateQuantity(cart: seq<CartItem>, id: string, quantity: int): (r: seq<CartItem>)
    ensures |r| == |cart|
  {
    if quantity < 1 then
      cart
    else
      seq(|cart|, i requires 0 <= i < |cart| =>
        if cart[i].product.id == id then cart[i].(quantity := quantity) else cart[i])
  }

  /** Sum of price times quantity over the lines, in cents. */
  function Subtotal(cart: seq<CartItem>): (total: int)
  {
    Sum(cart, LineTotal)
  }

  // ---------------------------------------------------------------- addToCart

  /** Adding a product that is already in the cart keeps the length and raises only that
      line's quantity, by exactly one, keeping the product copy taken at first add; adding
      a new product appends one line with quantity 1. */
  lemma AddToCartEffect(cart: seq<CartItem>, p: Product)
    requires WellFormed(cart)
    ensures forall k :: 0 <= k < |cart| && cart[k].product.id == p.id ==>
      AddToCart(cart, p) == cart[k := CartItem(cart[k].product, cart[k].quantity + 1)]
    ensures !HasKey(cart, LineId, p.id) ==> AddToCart(cart, p) == cart + [CartItem(p, 1)]
  {
  }

  lemma AddToCartWellFormed(cart: seq<CartItem>, p: Product)
    requires WellFormed(cart)
    ensures WellFormed(AddToCart(cart, p))
    ensures HasKey(AddToCart(cart, p), LineId, p.id)
  {
    if !HasKey(cart, LineId, p.id) {
      assert AddToCart(cart, p)[|cart|].product.id == p.id;
    } else {
      var k :| 0 <= k < |cart| && cart[k].product.id == p.id;
      assert AddToCart(cart, p)[k].product.id == p.id;
    }
  }

  /** Adding raises the subtotal by one unit price: the price copied when the line was
      created, not the price of the product passed in. */
  lemma AddToCartSubtotal(cart: seq<CartItem>, p: Product)
    requires WellFormed(cart)
    ensures forall k :: 0 <= k < |cart| && cart[k].product.id == p.id ==>
      Subtotal(AddToCart(cart, p)) == Subtotal(cart) + cart[k].product.price
    ensures !HasKey(cart, LineId, p.id) ==> Subtotal(AddToCart(cart, p)) == Subtotal(cart) + p.price
  {
    AddToCartEffect(cart, p);
    forall k | 0 <= k < |cart| && cart[k].product.id == p.id
      ensures Subtotal(AddToCart(cart, p)) == Subtotal(cart) + cart[k].product.price
    {
      var line := CartItem(cart[k].product, cart[k].quantity + 1);
      SumUpdate(cart, k, line, LineTotal);
      assert LineTotal(line) == LineTotal(cart[k]) + cart[k].product.price by {
        assert cart[k].product.price * (cart[k].quantity + 1)
            == cart[k].product.price * cart[k].quantity + cart[k].product.price;
      }
    }
    if !HasKey(cart, LineId, p.id) {
      SumAppend(cart, [CartItem(p, 1)], LineTotal);
      SumSingleton(CartItem(p, 1), LineTotal);
    }
  }

  // ---------------------------------------------------------------- removeFromCart

  /** The kept lines are exactly the old lines with another id, in their original order;
      an id that is not in the cart leaves it as it was. */
  lemma RemoveFromCartEffect(cart: seq<CartItem>, id: string)
    ensures forall x :: x in RemoveFromCart(cart, id) <==> x in cart && x.product.id != id
    ensures SubsequenceOf(RemoveFromCart(cart, id), cart)
    ensures !HasKey(RemoveFromCart(cart, id), LineId, id)
    ensures !HasKey(cart, LineId, id) ==> RemoveFromCart(cart, id) == cart
  {
    FilterMembers(cart, OtherLine(id));
    FilterIsSubsequence(cart, OtherLine(id));
    FilterAllKept(cart, OtherLine(id));
    if !HasKey(cart, LineId, id) {
      FilterKeepsAll(cart, OtherLine(id));
    }
  }

  /** In a well-formed cart, removing a present id removes exactly that one line. */
  lemma RemoveFromCartAt(cart: seq<CartItem>, id: string, k: nat)
    requires WellFormed(cart) && k < |cart| && cart[k].product.id == id
    ensures RemoveFromCart(cart, id) == cart[..k] + cart[k + 1..]
    ensures |RemoveFromCart(cart, id)| == |cart| - 1
  {
    FilterDropsOne(cart, OtherLine(id), k);
  }

  lemma RemoveFromCartWellFormed(cart: seq<CartItem>, id: string)
    requires WellFormed(cart)
    ensures WellFormed(RemoveFromCart(cart, id))
  {
    var r := RemoveFromCart(cart, id);
    FilterUniqueKeys(cart, OtherLine(id), LineId);
    FilterMembers(cart, OtherLine(id));
    forall j | 0 <= j < |r| ensures r[j].quantity >= 1 {
      assert r[j] in cart;
    }
  }

  // ---------------------------------------------------------------- updateCartQuantity

  /** Below 1 nothing changes; otherwise the matching line gets exactly the new quantity,
      its product copy is kept, and every other line is untouched. */
  lemma UpdateQuantityEffect(cart: seq<CartItem>, id: string, quantity: int)
    requires WellFormed(cart)
    ensures quantity < 1 ==> UpdateQuantity(cart, id, quantity) == cart
    ensures !HasKey(cart, LineId, id) ==> UpdateQuantity(cart, id, quantity) == cart
    ensures quantity >= 1 ==> forall k :: 0 <= k < |cart| && cart[k].product.id == id ==>
      UpdateQuantity(cart, id, quantity) == cart[k := CartItem(cart[k].product, quantity)]
    ensures WellFormed(UpdateQuantity(cart, id, quantity))
  {
  }

  // ---------------------------------------------------------------- clearCart

  lemma ClearCartWellFormed()
    ensures WellFormed([])
    ensures Subtotal([]) == 0
  {
  }
}
