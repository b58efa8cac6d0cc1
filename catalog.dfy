/** The product lists that the store's admin mutators compute from the previous
    catalog (store/StoreContext.tsx, `addProduct`, `updateProduct`, `deleteProduct`). */
module Catalog {
  import opened Model
  import opened Seqs

  /** `updateProduct`: `prev.map(p => p.id === product.id ? product : p)`. */
  function UpdateProduct(products: seq<Product>, product: Product): (r: seq<Product>)
    ensures |r| == |products|
  {
    seq(|products|, i requires 0 <= i < |products| =>
      if products[i].id == product.id then product else products[i])
  }

  function OtherProduct(id: string): Product -> bool
  {
    (p: Product) => p.id != id
  }

  /** `deleteProduct`: `prev.filter(p => p.id !== id)`. */
  function DeleteProduct(products: seq<Product>, id: string): (r: seq<Product>)
    ensures |r| <= |products|
  {
    Filter(products, OtherProduct(id))
  }

  // ---------------------------------------------------------------- addProduct

  /** Appending a product under an id the catalog does not hold keeps the ids unique, and
      the new catalog has exactly one entry with that id: the product itself, at the end. */
  lemma AddProductFresh(products: seq<Product>, p: Product)
    requires UniqueKeys(products, ProductId) && !HasKey(products, ProductId, p.id)
    ensures UniqueKeys(products + [p], ProductId)
    ensures forall i :: 0 <= i < |products + [p]| && (products + [p])[i].id == p.id ==>
      i == |products| && (products + [p])[i] == p
  {
  }

  // ---------------------------------------------------------------- updateProduct

  /** The entry with the product's id is replaced in place, every other entry and the
      length are kept, and an unknown id changes nothing. */
  lemma UpdateProductEffect(products: seq<Product>, p: Product)
    requires UniqueKeys(products, ProductId)
    ensures |UpdateProduct(products, p)| == |products|
    ensures forall k :: 0 <= k < |products| && products[k].id == p.id ==>
      UpdateProduct(products, p) == products[k := p]
    ensures !HasKey(products, ProductId, p.id) ==> UpdateProduct(products, p) == products
    ensures UniqueKeys(UpdateProduct(products, p), ProductId)
  {
  }

  /** Saving a product exactly as the catalog holds it leaves the catalog as it was. */
  lemma UpdateProductUnchanged(products: seq<Product>, p: Product)
    requires UniqueKeys(products, ProductId) && p in products
    ensures UpdateProduct(products, p) == products
  {
    var k :| 0 <= k < |products| && products[k] == p;
    UpdateProductEffect(products, p);
    assert products[k := p] == products;
  }

  // ---------------------------------------------------------------- deleteProduct

  /** The kept entries are exactly those with another id, in their original order; an
      unknown id leaves the catalog as it was. */
  lemma DeleteProductEffect(products: seq<Product>, id: string)
    ensures forall x :: x in DeleteProduct(products, id) <==> x in products && x.id != id
    ensures SubsequenceOf(DeleteProduct(products, id), products)
    ensures !HasKey(DeleteProduct(products, id), ProductId, id)
    ensures !HasKey(products, ProductId, id) ==> DeleteProduct(products, id) == products
  {
    FilterMembers(products, OtherProduct(id));
    FilterIsSubsequence(products, OtherProduct(id));
    FilterAllKept(products, OtherProduct(id));
    if !HasKey(products, ProductId, id) {
      FilterKeepsAll(products, OtherProduct(id));
    }
  }

  /** With unique ids, deleting a present id removes exactly one entry. */
  lemma DeleteProductAt(products: seq<Product>, id: string, k: nat)
    requires UniqueKeys(products, ProductId) && k < |products| && products[k].id == id
    ensures DeleteProduct(products, id) == products[..k] + products[k + 1..]
    ensures |DeleteProduct(products, id)| == |products| - 1
  {
    FilterDropsOne(products, OtherProduct(id), k);
  }

  lemma DeleteProductUniqueIds(products: seq<Product>, id: string)
    requires UniqueKeys(products, ProductId)
    ensures UniqueKeys(DeleteProduct(products, id), ProductId)
  {
    FilterUniqueKeys(products, OtherProduct(id), ProductId);
  }
}
