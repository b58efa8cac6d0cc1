/** The storefront's single state container (store/StoreContext.tsx,
    `StoreProvider`): five pieces of state, each replaced wholesale by its
    mutators. Every mutator runs to completion before the next one starts. */
module Store {
  import opened Model
  import Cart
  import Catalog
  import Seqs

  class StoreState {
    var products: seq<Product>
    var cart: seq<CartItem>
    var orders: seq<Order>
    var blogPosts: seq<BlogPost>
    var isAdminMode: bool

    /** What every mutator keeps: one line per product in the cart with a positive
        quantity, unique product ids, unique order ids. */
    ghost predicate Valid()
      reads this
    {
      Cart.WellFormed(cart) && Seqs.UniqueKeys(products, ProductId) && Seqs.UniqueKeys(orders, OrderId)
    }

    /** A fresh session: the seed catalog and posts, an empty cart and ledger, admin mode off. */
    constructor (seedProducts: seq<Product>, seedPosts: seq<BlogPost>)
      requires seedProducts != [] && seedPosts != []
      requires Seqs.UniqueKeys(seedProducts, ProductId)
      ensures Valid()
      ensures products == seedProducts != [] && blogPosts == seedPosts != []
      ensures cart == [] && orders == [] && !isAdminMode
    {
      products := seedProducts;
      cart := [];
      orders := [];
      blogPosts := seedPosts;
      isAdminMode := false;
    }

    // ------------------------------------------------------------ cart

    method AddToCart(p: Product)
      requires Valid()
      modifies this`cart
      ensures Valid()
      ensures cart == Cart.AddToCart(old(cart), p)
    {
      Cart.AddToCartWellFormed(cart, p);
      cart := Cart.AddToCart(cart, p);
    }

    method RemoveFromCart(id: string)
      requires Valid()
      modifies this`cart
      ensures Valid()
      ensures cart == Cart.RemoveFromCart(old(cart), id)
    {
      Cart.RemoveFromCartWellFormed(cart, id);
      cart := Cart.RemoveFromCart(cart, id);
    }

    method UpdateCartQuantity(id: string, quantity: int)
      requires Valid()
      modifies this`cart
      ensures Valid()
      ensures quantity < 1 ==> cart == old(cart)
      ensures cart == Cart.UpdateQuantity(old(cart), id, quantity)
    {
      if quantity < 1 {
        return;
      }
      Cart.UpdateQuantityEffect(cart, id, quantity);
      cart := Cart.UpdateQuantity(cart, id, quantity);
    }

    method ClearCart()
      requires Valid()
      modifies this`cart
      ensures Valid()
      ensures cart == []
    {
      cart := [];
    }

    // ------------------------------------------------------------ checkout

    /** `placeOrder`: the order copies the cart as it was, totals it without shipping, starts
        pending, and goes in front of the earlier orders; then the cart is emptied.
        `orderId` and `date` stand for the random id and today's date. */
    method PlaceOrder(orderId: string, customerName: string, customerEmail: string, date: string)
      requires Valid()
      requires !Seqs.HasKey(orders, OrderId, orderId)
      modifies this`orders, this`cart
      ensures Valid()
      ensures orders == [Order(orderId, customerName, customerEmail, old(cart),
                               Cart.Subtotal(old(cart)), Pending, date)] + old(orders)
      ensures cart == []
    {
      var order := Order(orderId, customerName, customerEmail, cart, Cart.Subtotal(cart), Pending, date);
      orders := [order] + orders;
      ClearCart();
    }

    // ------------------------------------------------------------ catalog

    /** `addProduct` appends; the caller supplies an id the catalog does not hold yet. */
    method AddProduct(p: Product)
      requires Valid()
      requires !Seqs.HasKey(products, ProductId, p.id)
      modifies this`products
      ensures Valid()
      ensures products == old(products) + [p]
    {
      Catalog.AddProductFresh(products, p);
      products := products + [p];
    }

    method UpdateProduct(p: Product)
      requires Valid()
      modifies this`products
      ensures Valid()
      ensures products == Catalog.UpdateProduct(old(products), p)
    {
      Catalog.UpdateProductEffect(products, p);
      products := Catalog.UpdateProduct(products, p);
    }

    method DeleteProduct(id: string)
      requires Valid()
      modifies this`products
      ensures Valid()
      ensures products == Catalog.DeleteProduct(old(products), id)
    {
      Catalog.DeleteProductUniqueIds(products, id);
      products := Catalog.DeleteProduct(products, id);
    }

    // ------------------------------------------------------------ content and mode

    /** `addBlogPost` puts the new post first. */
    method AddBlogPost(post: BlogPost)
      requires Valid()
      modifies this`blogPosts
      ensures Valid()
      ensures blogPosts == [post] + old(blogPosts)
    {
      blogPosts := [post] + blogPosts;
    }

    method ToggleAdminMode()
      requires Valid()
      modifies this`isAdminMode
      ensures Valid()
      ensures isAdminMode == !old(isAdminMode)
    {
      isAdminMode := !isAdminMode;
    }
  }

  /** The checkout walk-through for one product at 24.90: two adds merge into one line,
      the quantity is set to 5, and the placed order totals 124.50 with the cart emptied.
      Two toggles restore the admin flag. */
  method CheckoutWalkthrough()
  {
    var oil := Product("1", "Reserva Familiar Picual", "Finca La Torre", 2490, "500ml",
                       "extra-virgin", 0.1, 50, "", "", true);
    var post := BlogPost("1", "Picual", "", "", "", "2024-01-01", "Mundoliva");
    var store := new StoreState([oil], [post]);
    store.AddToCart(oil);
    assert store.cart == [CartItem(oil, 1)];
    Cart.AddToCartEffect(store.cart, oil);
    store.AddToCart(oil);
    assert store.cart == [CartItem(oil, 2)];
    store.UpdateCartQuantity("1", 0);
    assert store.cart == [CartItem(oil, 2)];
    store.UpdateCartQuantity("1", 5);
    assert store.cart == [CartItem(oil, 5)];
    Seqs.SumSingleton(CartItem(oil, 5), LineTotal);
    assert Cart.Subtotal(store.cart) == 12450;
    store.PlaceOrder("o1", "Jane", "jane@x.com", "2024-01-01");
    assert store.orders[0].items[0].quantity == 5;
    assert store.orders[0].total == 12450;
    assert store.cart == [];
    store.ToggleAdminMode();
    store.ToggleAdminMode();
    assert !store.isAdminMode;
  }
}
