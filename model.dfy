/** The storefront's records. Money is held in integer euro cents. */
module Model {

  /** A field that may be absent, as in a TypeScript `Partial<...>` object. */
  datatype Option<T> = None | Some(value: T)

  /** A catalog entry (the fields the seed catalog and the product form carry). */
  datatype Product = Product(
    id: string,
    name: string,
    brand: string,
    price: int,          // cents
    size: string,
    category: string,
    acidity: real,       // percent
    stock: int,
    description: string,
    image: string,
    featured: bool)

  /** A cart line: a copy of the product taken when it was first added, and a quantity. */
  datatype CartItem = CartItem(product: Product, quantity: int)

  /** An order starts out pending; nothing in the storefront moves it on. */
  datatype OrderStatus = Pending

  datatype Order = Order(
    id: string,
    customerName: string,
    customerEmail: string,
    items: seq<CartItem>,
    total: int,          // cents, shipping not included
    status: OrderStatus,
    date: string)

  datatype BlogPost = BlogPost(
    id: string,
    title: string,
    excerpt: string,
    content: string,
    image: string,
    date: string,
    author: string)

  /** The keys the storefront looks entries up by. A cart line is keyed by its product's id. */
  function LineId(item: CartItem): string
  {
    item.product.id
  }

  function ProductId(p: Product): string
  {
    p.id
  }

  function OrderId(o: Order): string
  {
    o.id
  }

  /** One line's contribution to a total: price times quantity. */
  function LineTotal(item: CartItem): int
  {
    item.product.price * item.quantity
  }

  function Quantity(item: CartItem): int
  {
    item.quantity
  }
}
