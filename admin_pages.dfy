/** The admin panel's product editor (pages/AdminPages.tsx, `AdminDashboard`):
    a small state machine over `isEditing`, the draft `currentProduct` and
    `isGenerating`, which calls the store's catalog mutators. */
module AdminPages {
  import opened Model
  import Seqs
  import Catalog
  import Store

  /** The editor's draft, a `Partial<Product>`: any field may be missing. */
  datatype Draft = Draft(
    id: Option<string>,
    name: Option<string>,
    brand: Option<string>,
    price: Option<int>,
    size: Option<string>,
    category: Option<string>,
    acidity: Option<real>,
    stock: Option<int>,
    description: Option<string>,
    image: Option<string>,
    featured: Option<bool>)

  /** `{}`. */
  const EmptyDraft := Draft(None, None, None, None, None, None, None, None, None, None, None)

  /** The draft the "edit" button loads: the whole product. */
  function DraftOf(p: Product): (d: Draft)
  {
    Draft(Some(p.id), Some(p.name), Some(p.brand), Some(p.price), Some(p.size), Some(p.category),
          Some(p.acidity), Some(p.stock), Some(p.description), Some(p.image), Some(p.featured))
  }

  function Or<T>(o: Option<T>, default: T): T
  {
    if o.Some? then o.value else default
  }

  /** JavaScript truthiness of an optional string: present and not empty. */
  predicate Truthy(o: Option<string>)
  {
    o.Some? && o.value != ""
  }

  /** `currentProduct as Product`, with a missing field read as its type's empty value. */
  function AsProduct(d: Draft): (p: Product)
  {
    Product(Or(d.id, ""), Or(d.name, ""), Or(d.brand, ""), Or(d.price, 0), Or(d.size, ""),
            Or(d.category, ""), Or(d.acidity, 0.0), Or(d.stock, 0), Or(d.description, ""),
            Or(d.image, ""), Or(d.featured, false))
  }

  /** The save rule's test: `currentProduct.id && products.find(p => p.id === currentProduct.id)`. */
  predicate IsKnown(d: Draft, products: seq<Product>)
  {
    Truthy(d.id) && Seqs.HasKey(products, ProductId, d.id.value)
  }

  /** The product a save adds: the draft under a generated id and image, whatever it carried. */
  function NewProductFrom(d: Draft, freshId: string, freshImage: string): (p: Product)
  {
    AsProduct(d).(id := freshId, image := freshImage)
  }

  /** Loading a product into the editor and reading it back gives the product. */
  lemma DraftRoundTrip(p: Product)
    ensures AsProduct(DraftOf(p)) == p
  {
  }

  /** Editing a listed product and saving it untouched takes the update path and leaves
      the catalog as it was. */
  lemma EditThenSaveUnchanged(products: seq<Product>, p: Product)
    requires Seqs.UniqueKeys(products, ProductId) && p in products && p.id != ""
    ensures IsKnown(DraftOf(p), products)
    ensures Catalog.UpdateProduct(products, AsProduct(DraftOf(p))) == products
  {
    var k :| 0 <= k < |products| && products[k] == p;
    assert products[k].id == p.id;
    DraftRoundTrip(p);
    Catalog.UpdateProductUnchanged(products, p);
  }

  /** Saving an unknown draft adds one product under the fresh id, and the catalog's ids stay unique. */
  lemma SaveNewSpec(products: seq<Product>, d: Draft, freshId: string, freshImage: string)
    requires Seqs.UniqueKeys(products, ProductId) && !Seqs.HasKey(products, ProductId, freshId)
    ensures Seqs.UniqueKeys(products + [NewProductFrom(d, freshId, freshImage)], ProductId)
    ensures NewProductFrom(d, freshId, freshImage).id == freshId
    ensures NewProductFrom(d, freshId, freshImage).image == freshImage
    ensures NewProductFrom(d, freshId, freshImage).(id := Or(d.id, ""), image := Or(d.image, "")) == AsProduct(d)
  {
    Catalog.AddProductFresh(products, NewProductFrom(d, freshId, freshImage));
  }

  // ---------------------------------------------------------------- views

  datatype Tab = DashboardTab | ProductsTab | OrdersTab

  datatype View = Restricted | Dashboard | ProductList | ProductForm | OrdersNotice

  /** What the admin route renders. */
  function ViewOf(isAdminMode: bool, tab: Tab, isEditing: bool): (v: View)
  {
    if !isAdminMode then Restricted
    else match tab
      case DashboardTab => Dashboard
      case ProductsTab => if isEditing then ProductForm else ProductList
      case OrdersTab => OrdersNotice
  }

  /** Outside admin mode only the restricted notice is rendered, so no catalog control exists;
      the list (edit, delete, new) and the form (save, cancel, generate) need admin mode. */
  lemma ViewSpec(isAdminMode: bool, tab: Tab, isEditing: bool)
    ensures ViewOf(isAdminMode, tab, isEditing) == Restricted <==> !isAdminMode
    ensures ViewOf(isAdminMode, tab, isEditing) == ProductForm <==> isAdminMode && tab == ProductsTab && isEditing
    ensures ViewOf(isAdminMode, tab, isEditing) == ProductList <==> isAdminMode && tab == ProductsTab && !isEditing
  {
  }

  // ---------------------------------------------------------------- the editor

  /** What the description generator is asked: the draft's name and brand, and fixed tasting notes. */
  datatype BridgeRequest = BridgeRequest(productName: string, brand: string, nuances: string)

  const DemoNuances := "frutado intenso, picante medio"

  class ProductEditor {
    const store: Store.StoreState
    var isEditing: bool
    var draft: Draft
    var isGenerating: bool

    ghost predicate Valid()
      reads this, store
    {
      store.Valid()
    }

    constructor (store: Store.StoreState)
      requires store.Valid()
      ensures Valid() && this.store == store
      ensures !isEditing && draft == EmptyDraft && !isGenerating
    {
      this.store := store;
      isEditing := false;
      draft := EmptyDraft;
      isGenerating := false;
    }

    /** `handleSaveProduct`: update a known id, otherwise add the draft under `freshId` and
        `freshImage` (the generated id and image); then close the editor with an empty draft. */
    method SaveProduct(freshId: string, freshImage: string)
      requires Valid() && store.isAdminMode
      requires !Seqs.HasKey(store.products, ProductId, freshId)
      modifies this`isEditing, this`draft, store`products
      ensures Valid()
      ensures old(IsKnown(draft, store.products)) ==>
        store.products == Catalog.UpdateProduct(old(store.products), AsProduct(old(draft)))
      ensures !old(IsKnown(draft, store.products)) ==>
        store.products == old(store.products) + [NewProductFrom(old(draft), freshId, freshImage)]
      ensures |store.products| == |old(store.products)| + if old(IsKnown(draft, store.products)) then 0 else 1
      ensures !isEditing && draft == EmptyDraft
    {
      if IsKnown(draft, store.products) {
        Catalog.UpdateProductEffect(store.products, AsProduct(draft));
        store.UpdateProduct(AsProduct(draft));
      } else {
        store.AddProduct(NewProductFrom(draft, freshId, freshImage));
      }
      isEditing := false;
      draft := EmptyDraft;
    }

    /** The "cancel" button of the form. */
    method Cancel()
      requires Valid() && store.isAdminMode
      modifies this`isEditing, this`draft
      ensures Valid()
      ensures !isEditing && draft == EmptyDraft
    {
      isEditing := false;
      draft := EmptyDraft;
    }

    /** The "new product" button. */
    method NewProduct()
      requires Valid() && store.isAdminMode
      modifies this`isEditing, this`draft
      ensures Valid()
      ensures isEditing && draft == EmptyDraft
    {
      draft := EmptyDraft;
      isEditing := true;
    }

    /** The "edit" button of a listed product. */
    method EditProduct(p: Product)
      requires Valid() && store.isAdminMode
      requires p in store.products
      modifies this`isEditing, this`draft
      ensures Valid()
      ensures isEditing && draft == DraftOf(p)
    {
      draft := DraftOf(p);
      isEditing := true;
    }

    /** The "delete" button of a listed product; `confirmed` is the answer to the confirmation dialog. */
    method DeleteProduct(id: string, confirmed: bool)
      requires Valid() && store.isAdminMode
      modifies store`products
      ensures Valid()
      ensures store.products == if confirmed then Catalog.DeleteProduct(old(store.products), id)
                                else old(store.products)
    {
      if confirmed {
        store.DeleteProduct(id);
      }
    }

    /** The first half of `handleAIGenerate`: without a name and a brand nothing is asked and
        nothing changes; otherwise the request is returned and the button is disabled. */
    method BeginGenerate() returns (request: Option<BridgeRequest>)
      requires Valid() && store.isAdminMode && isEditing && !isGenerating
      modifies this`isGenerating
      ensures Valid()
      ensures request.None? <==> !(Truthy(draft.name) && Truthy(draft.brand))
      ensures request.None? ==> !isGenerating
      ensures request.Some? ==>
        isGenerating && request.value == BridgeRequest(draft.name.value, draft.brand.value, DemoNuances)
    {
      if !Truthy(draft.name) || !Truthy(draft.brand) {
        return None;
      }
      isGenerating := true;
      request := Some(BridgeRequest(draft.name.value, draft.brand.value, DemoNuances));
    }

    /** The second half: the generated text replaces only the draft's description. */
    method FinishGenerate(description: string)
      requires Valid() && isGenerating
      modifies this`draft, this`isGenerating
      ensures Valid()
      ensures draft == old(draft).(description := Some(description))
      ensures !isGenerating
    {
      draft := draft.(description := Some(description));
      isGenerating := false;
    }
  }
}
