# Mundoliva storefront store, modelled in Dafny

Mundoliva is a small olive-oil storefront that keeps all of its state in memory in one
client-side state container. This project models that container and the pure
derivations the pages compute from it, and proves what they promise:

- the cart merges repeated adds into one line, keeps one line per product id with a
  quantity of at least 1, and every cart operation changes only what it names;
- checkout copies the cart into a new order in front of the earlier ones, with the
  subtotal of price times quantity as its total, and empties the cart;
- product add, replace-by-id and delete-by-id keep catalog ids unique and leave the other
  entries in their places;
- the home page's featured list, the shop's brand and size options and filter, the cart
  page's shipping rule and quantity buttons, and the navbar's cart count and admin links;
- the admin product editor: its save rule (update a known id, otherwise add under a fresh
  id), cancel, new, edit, confirmed delete, the name-and-brand gate before asking for a
  generated description, and the admin-mode gate on the whole panel.

Modules follow the source files. `Store` (store/StoreContext.tsx) is a class whose five
fields are replaced by its mutators; each mutator's `ensures` gives the new field as a
pure function of the old one (`Cart`, `Catalog`), and the lemmas beside those functions
state the properties. `PublicPages` and `Shared` are pure functions and lemmas.
`AdminPages` holds the editor's pure save rule and a `ProductEditor` class for its
state machine, which calls the store. `Seqs` holds `Filter`, `Sum` and `Distinct`,
which stand for JavaScript's `filter`, numeric `reduce` and `Array.from(new Set(...))`,
and the order-preservation relation `SubsequenceOf`. `Model` holds the records.

Money is integer euro cents: the 60.00 free-shipping threshold is 6000 and the 5.95 fee is
595. Generated ids, the generated image URL and the order date are parameters. The
generated ids carry a freshness precondition: the random order id is not already in the
ledger, and the admin's new product id is not already in the catalog.
`Store.CheckoutWalkthrough` is a verified walk-through of a worked example, written as a
client of the store. A product at 24.90 is added twice and becomes one line of quantity 2. A quantity
of 0 is ignored. Setting the quantity to 5 works. Checkout then yields an order totalling
124.50 and an empty cart.

The record types come from `types.ts`, which is not part of this model. Their fields are
those the seed catalog and the product form use. `category` is kept as a string, and an
order's status has the one value the source ever assigns, `Pending`.

`placeOrder` does not check for an empty cart: called on one, it still records an order
with no items and a total of 0. Only the cart page keeps this from happening, by showing
the checkout form only while the cart has a line (`PublicPages.SubmitCheckout`).

Lookups by id (`find(x => x.id === id)`) and the "ids are unique" invariants of the cart,
the catalog and the order ledger are one generic pair in `Seqs`, `HasKey` and `UniqueKeys`,
applied to the key functions `LineId`, `ProductId` and `OrderId`.

## Model

| member | source | states |
|---|---|---|
| Cart.AddToCart | store/StoreContext.tsx:111-117 | `addToCart`'s new cart: when a line has the product's id every such line's quantity goes up by 1, otherwise `{...product, quantity: 1}` is appended; its properties are the three `AddToCart` lemmas below |
| Cart.RemoveFromCart | store/StoreContext.tsx:121 | `prev.filter(item => item.id !== productId)`; its properties are `RemoveFromCartEffect`, `RemoveFromCartAt` and `RemoveFromCartWellFormed` |
| Cart.UpdateQuantity | store/StoreContext.tsx:125-126 | a quantity below 1 returns the cart as it was; otherwise each line with the id gets the new quantity; its properties are `UpdateQuantityEffect` |
| Cart.Subtotal | store/StoreContext.tsx:137 | the sum of price times quantity over the lines, the order total also computed by the cart page (pages/PublicPages.tsx:265); its properties are `AddToCartSubtotal` and the shipping lemmas |
| Cart.AddToCartEffect | store/StoreContext.tsx:110-117 | adding a product whose id is already in the cart keeps the length and replaces only that line, raising its quantity by exactly 1 and keeping the product copy taken at first add; adding a new product appends one line with the product and quantity 1 |
| Cart.AddToCartWellFormed | store/StoreContext.tsx:110-117 | adding keeps the cart invariant (distinct ids, quantities at least 1) and leaves a line for the product |
| Cart.AddToCartSubtotal | store/StoreContext.tsx:112-116 | adding raises the subtotal by one unit price, the price copied into the existing line rather than the price passed in; for a new product by that product's price |
| Cart.RemoveFromCartEffect | store/StoreContext.tsx:120-122 | the remaining lines are exactly the old lines with another id, in their original order; no line with the id remains; an absent id leaves the cart unchanged |
| Cart.RemoveFromCartAt | store/StoreContext.tsx:121 | in a well-formed cart, removing a present id removes exactly that one line and keeps the others in order |
| Cart.RemoveFromCartWellFormed | store/StoreContext.tsx:120-122 | removal keeps the cart invariant |
| Cart.UpdateQuantityEffect | store/StoreContext.tsx:124-127 | a quantity below 1 or an absent id leaves the cart unchanged; otherwise the matching line gets exactly the new quantity, its product copy kept, every other line untouched; the invariant is kept |
| Cart.ClearCartWellFormed | store/StoreContext.tsx:129 | the cleared cart satisfies the invariant and has subtotal 0 |
| Catalog.UpdateProduct | store/StoreContext.tsx:152 | `prev.map(p => p.id === product.id ? product : p)`; its properties are `UpdateProductEffect` and `UpdateProductUnchanged` |
| Catalog.DeleteProduct | store/StoreContext.tsx:156 | `prev.filter(p => p.id !== productId)`; its properties are `DeleteProductEffect`, `DeleteProductAt` and `DeleteProductUniqueIds` |
| Catalog.AddProductFresh | store/StoreContext.tsx:147-149 | appending a product under an id the catalog lacks keeps ids unique, and the only entry with that id is the product, at the end |
| Catalog.UpdateProductEffect | store/StoreContext.tsx:151-153 | the entry with the product's id is replaced in place, length and other entries kept; an unknown id changes nothing; ids stay unique |
| Catalog.UpdateProductUnchanged | store/StoreContext.tsx:151-153 | replacing an entry by itself leaves the catalog as it was |
| Catalog.DeleteProductEffect | store/StoreContext.tsx:155-157 | the remaining entries are exactly those with another id, in their original order; none with the id remains; an unknown id changes nothing |
| Catalog.DeleteProductAt | store/StoreContext.tsx:155-157 | with unique ids, deleting a present id removes exactly that entry and keeps the others in order |
| Seqs.FilterUniqueKeys | store/StoreContext.tsx:121 | any filter keeps keys unique; applied to the cart lines here and to the catalog at store/StoreContext.tsx:156 |
| Catalog.DeleteProductUniqueIds | store/StoreContext.tsx:155-157 | deletion keeps catalog ids unique |
| Store.StoreState.constructor | store/StoreContext.tsx:102-107 | a session starts with the non-empty seed catalog and posts, an empty cart and ledger, and admin mode off |
| Store.StoreState.AddToCart | store/StoreContext.tsx:110-118 | only the cart changes, to the merged cart, and the store invariant is kept |
| Store.StoreState.RemoveFromCart | store/StoreContext.tsx:120-122 | only the cart changes, to the filtered cart |
| Store.StoreState.UpdateCartQuantity | store/StoreContext.tsx:124-127 | below 1 nothing changes; otherwise only the cart changes, to the updated cart |
| Store.StoreState.ClearCart | store/StoreContext.tsx:129 | only the cart changes, to empty |
| Store.StoreState.PlaceOrder | store/StoreContext.tsx:131-144 | exactly one order is put in front of the unchanged earlier orders, holding the customer data, the pre-checkout cart, its subtotal as total, status pending and the given date; the cart is then empty; order ids stay unique |
| Store.StoreState.AddProduct | store/StoreContext.tsx:147-149 | only the catalog changes, by appending the product at the end |
| Store.StoreState.UpdateProduct | store/StoreContext.tsx:151-153 | only the catalog changes, to the replaced-by-id catalog |
| Store.StoreState.DeleteProduct | store/StoreContext.tsx:155-157 | only the catalog changes, to the filtered catalog |
| Store.StoreState.AddBlogPost | store/StoreContext.tsx:159-161 | only the posts change: the new post at index 0, the earlier posts after it |
| Store.StoreState.ToggleAdminMode | store/StoreContext.tsx:163 | only the flag changes, to its negation, so two toggles restore it |
| PublicPages.Featured | pages/PublicPages.tsx:11 | `products.filter(p => p.featured).slice(0, 3)`; its properties are `FeaturedSpec` and `FeaturedAreFirst` |
| PublicPages.FeaturedSpec | pages/PublicPages.tsx:11 | the featured list has at most 3 products, all featured, in catalog order; a featured product is left out only when 3 are already shown |
| PublicPages.FeaturedAreFirst | pages/PublicPages.tsx:11 | with unique ids, a featured product that comes before a shown one is also shown: the home page shows the first featured products, not any three |
| PublicPages.Brands | pages/PublicPages.tsx:161 | `Array.from(new Set(products.map(p => p.brand)))`; its properties are `OptionsSpec` |
| PublicPages.Sizes | pages/PublicPages.tsx:162 | `Array.from(new Set(products.map(p => p.size)))`; its properties are `OptionsSpec` |
| PublicPages.FilterProducts | pages/PublicPages.tsx:164-168 | the products whose brand and size both match the selection, "all" matching anything; its properties are `FilterProductsSpec`, `FilterAllShowsCatalog` and `OfferedBrandNonEmpty` |
| PublicPages.OptionsOf | pages/PublicPages.tsx:161-162 | an option list built through a Set has no repeats and holds exactly the values some product maps to |
| PublicPages.OptionsSpec | pages/PublicPages.tsx:161-162 | the brand and size options have no duplicates, contain every product's brand (size), and nothing else |
| PublicPages.FilterAllShowsCatalog | pages/PublicPages.tsx:164-168 | with both filters on "all" the grid is the whole catalog |
| PublicPages.FilterProductsSpec | pages/PublicPages.tsx:164-168 | the grid is an order-preserving subsequence of the catalog holding exactly the products matching the selected brand and size |
| PublicPages.OfferedBrandNonEmpty | pages/PublicPages.tsx:161-168 | choosing any offered brand with every size shows at least one product |
| PublicPages.Shipping | pages/PublicPages.tsx:266 | 0 for a subtotal above 60.00, 5.95 otherwise; its properties are the two shipping lemmas and `SubmitCheckout` |
| PublicPages.PageTotal | pages/PublicPages.tsx:265-267 | the total the cart page shows, the cart's subtotal plus its shipping; related to the stored order total by `SubmitCheckout` |
| PublicPages.FreeShippingKeptOnAdd | pages/PublicPages.tsx:265-266 | with non-negative prices, adding a product never lowers the subtotal, so shipping that was free stays free |
| PublicPages.RemoveNeverRaisesSubtotal | pages/PublicPages.tsx:265 | with non-negative prices, removing a line (store/StoreContext.tsx:121) never raises the subtotal the page computes |
| PublicPages.ShippingChargedOnRemove | pages/PublicPages.tsx:265-266 | with non-negative prices, removing a line never raises the subtotal, so shipping that was charged stays charged |
| PublicPages.SubmitCheckout | pages/PublicPages.tsx:269-285 | submitting the form, which is rendered only for a non-empty cart, places exactly one order holding the non-empty cart in front of the earlier ones and empties the cart; the stored total leaves shipping out, so it plus the shipping charge is the total the page showed, and it is below that total exactly when the subtotal is at most 60.00 |
| PublicPages.PressMinus | pages/PublicPages.tsx:307-311 | the minus button of a line, disabled at quantity 1 or less and otherwise asking for one less; its properties are `QuantityButtonsSpec` |
| PublicPages.PressPlus | pages/PublicPages.tsx:315-317 | the plus button of a line, asking for one more; its properties are `QuantityButtonsSpec` |
| PublicPages.QuantityButtonsSpec | pages/PublicPages.tsx:307-320 | plus raises line k's quantity by 1; minus does nothing at quantity 1 or less and otherwise lowers it by 1; both change nothing else and keep the cart invariant, so no quantity drops below 1 |
| PublicPages.MinusAtOneIgnored | pages/PublicPages.tsx:308-310 | even a minus press at quantity 1 is ignored by the quantity floor |
| Shared.CartCount | components/Shared.tsx:32 | `cart.reduce((acc, item) => acc + item.quantity, 0)`; its properties are the three `CartCount` lemmas |
| Shared.ShowCountBadge | components/Shared.tsx:75-79 | the badge is rendered when the count is above 0; characterised by `CartCountSpec` |
| Shared.DesktopLinks | components/Shared.tsx:53-86 | the desktop menu's link targets: the four page links, the cart, and the admin panel in admin mode; its properties are `AdminLinkSpec` |
| Shared.MobileLinks | components/Shared.tsx:103-123 | the open mobile menu's link targets: the four page links, the dashboard in admin mode, the cart; nothing when closed; its properties are `AdminLinkSpec` |
| Shared.CartCountSpec | components/Shared.tsx:32-79 | an empty cart counts 0; a well-formed cart counts at least one per line; the badge shows exactly when the cart has a line |
| Shared.CartCountAddToCart | components/Shared.tsx:32 | every add to a well-formed cart raises the count by exactly 1, whether it merges or appends |
| Shared.CartCountRemove | components/Shared.tsx:32 | removing a line lowers the count by that line's quantity |
| Shared.AdminLinkSpec | components/Shared.tsx:82-123 | the desktop menu links to the admin panel exactly in admin mode, the open mobile menu likewise, and both always link to the cart |
| AdminPages.DraftOf | pages/AdminPages.tsx:210 | the draft the edit button loads, every field present; its properties are `DraftRoundTrip` |
| AdminPages.AsProduct | pages/AdminPages.tsx:33 | `currentProduct as Product`, a missing field read as its type's empty value; its properties are `DraftRoundTrip` and `EditThenSaveUnchanged` |
| AdminPages.IsKnown | pages/AdminPages.tsx:32 | the save rule's test: a truthy draft id that some catalog entry has; its properties are `EditThenSaveUnchanged` and `SaveProduct` |
| AdminPages.NewProductFrom | pages/AdminPages.tsx:35 | the added product, `{...currentProduct, id, image}` with the generated id and image; its properties are `SaveNewSpec` |
| AdminPages.ViewOf | pages/AdminPages.tsx:257-259 | what the admin route renders: the restricted notice outside admin mode (lines 18-27), otherwise the active tab's view, the form on the products tab while editing; its properties are `ViewSpec` |
| AdminPages.DraftRoundTrip | pages/AdminPages.tsx:210 | loading a product into the editor and reading the draft back as a product gives the product |
| AdminPages.EditThenSaveUnchanged | pages/AdminPages.tsx:32-33 | saving a listed product untouched takes the update path and leaves the catalog unchanged |
| AdminPages.SaveNewSpec | pages/AdminPages.tsx:34-35 | the added product carries the fresh id and image whatever the draft had, its other fields come from the draft, and the catalog keeps unique ids |
| AdminPages.ViewSpec | pages/AdminPages.tsx:18-27 | outside admin mode only the restricted notice renders; the product list and form render only in admin mode on the products tab |
| AdminPages.ProductEditor.constructor | pages/AdminPages.tsx:14-16 | the editor starts closed, with an empty draft, not generating |
| AdminPages.ProductEditor.SaveProduct | pages/AdminPages.tsx:30-39 | a known non-empty draft id updates the catalog in place and keeps its length; otherwise the draft is added under the fresh id and image and the catalog grows by one; then the editor is closed with an empty draft |
| AdminPages.ProductEditor.Cancel | pages/AdminPages.tsx:171 | the editor closes with an empty draft and the catalog is not touched |
| AdminPages.ProductEditor.NewProduct | pages/AdminPages.tsx:183 | the editor opens with an empty draft |
| AdminPages.ProductEditor.EditProduct | pages/AdminPages.tsx:210 | the editor opens with the chosen product as the draft |
| AdminPages.ProductEditor.DeleteProduct | pages/AdminPages.tsx:213 | the catalog loses the id's entries only when the user confirmed, and is untouched otherwise |
| AdminPages.ProductEditor.BeginGenerate | pages/AdminPages.tsx:41-47 | without a name or a brand no request is made and nothing changes; otherwise the request carries the draft's name and brand and the fixed notes, and generation is marked running |
| AdminPages.ProductEditor.FinishGenerate | pages/AdminPages.tsx:48-50 | the generated text replaces only the draft's description, and generation is marked finished |

## Left out

- services/geminiService.ts, the text-generation call, is not part of this model. `BeginGenerate` returns the request it would send. The text that came back is the parameter of `FinishGenerate`, so the fallback strings are just possible values of that parameter. `generateBlogTopicIdea` has no caller in the modelled files.
- Rendering is not modelled: JSX, Tailwind classes, icons, the `Button` and `Footer` components, and the home page's static sections. Routing (`Link`, `useNavigate`, `useLocation`) appears only as the link paths each menu lists.
- The dashboard's chart, its hard-coded sales figures and the orders-tab text are not modelled; `ViewOf` says only which view renders. Tab switching and the mobile menu's open flag are parameters.
- The `alert` after checkout and before generation, and the `setTimeout` "added" flash on the product card, are not modelled. The `confirm` dialog is the boolean `confirmed`.
- `Math.random` ids and image URLs and `new Date()` are parameters. The generated ids' freshness is a precondition; the image URL and the date are unconstrained.
- Floating-point prices and `toFixed` rounding are replaced by integer cents. Acidity is a `real`, and the "Premium" card badge it drives is display only.
- React scheduling is not modelled. The stale reads of `cart` in `placeOrder` and of `isAdminMode` in `toggleAdminMode` are not modelled. Every mutator is atomic. `FinishGenerate` assumes no edits to the draft between the two halves of the generation, while the source writes back the draft it read before the request. The editor's per-field `onChange` handlers are not modelled: each replaces one draft field.
- Store.StoreState.constructor: the seed fixtures' contents are not modelled. The constructor takes the seed catalog and posts, and requires only that both are non-empty and that the seed product ids are distinct.
- Store.StoreState.AddProduct: requires an id the catalog does not hold. The source does not check this; its only caller passes a freshly generated id.
- Store.StoreState.PlaceOrder: requires an order id not already in the ledger, standing for the random id being new.
- AdminPages.ProductEditor.SaveProduct: the TypeScript cast `currentProduct as Product` leaves missing fields `undefined`. `AsProduct` fills them with the empty value of their type (`""`, `0`, `false`) instead. For a new product these are the category and the featured flag, which the form never sets, and the description unless one was typed or generated.
- Checkout-form validation is not modelled: the source performs none beyond the inputs' `required` attributes and the email field's `type="email"` format check, both done by the browser before `handleSubmit` runs.
