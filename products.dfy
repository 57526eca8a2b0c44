/** The refactored product-list hook: the product list it holds, replaced
    by an edited product or extended by a new one. */
module Products {
  import opened Domain

  /** replaceProduct: every product with the edited product's id becomes the
      edited product; the list keeps its length and every other entry. */
  function ReplaceProduct(products: seq<Product>, updatedProduct: Product): (r: seq<Product>)
    ensures |r| == |products|
    ensures forall i :: 0 <= i < |products| && products[i].id == updatedProduct.id ==> r[i] == updatedProduct
    ensures forall i :: 0 <= i < |products| && products[i].id != updatedProduct.id ==> r[i] == products[i]
  {
    if products == [] then []
    else
      [if products[0].id == updatedProduct.id then updatedProduct else products[0]]
        + ReplaceProduct(products[1..], updatedProduct)
  }

  /** Replacing a product whose id is not in the list changes nothing. */
  lemma ReplaceProductAbsent(products: seq<Product>, updatedProduct: Product)
    requires forall i :: 0 <= i < |products| ==> products[i].id != updatedProduct.id
    ensures ReplaceProduct(products, updatedProduct) == products
  {
    var r := ReplaceProduct(products, updatedProduct);
    assert forall i :: 0 <= i < |r| ==> r[i] == products[i];
  }

  /** Replacing twice with the same product is replacing once. */
  lemma ReplaceProductIdempotent(products: seq<Product>, updatedProduct: Product)
    ensures ReplaceProduct(ReplaceProduct(products, updatedProduct), updatedProduct)
         == ReplaceProduct(products, updatedProduct)
  {
    var once := ReplaceProduct(products, updatedProduct);
    var twice := ReplaceProduct(once, updatedProduct);
    assert forall i :: 0 <= i < |once| ==> twice[i] == once[i];
  }

  /** The product list the hook holds. */
  class ProductStore {
    var products: seq<Product>

    constructor (initialProducts: seq<Product>)
      ensures products == initialProducts
    {
      products := initialProducts;
    }

    /** updateProduct: the list becomes replaceProduct of the previous list. */
    method UpdateProduct(updatedProduct: Product)
      modifies this
      ensures products == ReplaceProduct(old(products), updatedProduct)
    {
      products := ReplaceProduct(products, updatedProduct);
    }

    /** addProduct: the new product goes at the end, even when its id is
        already in the list; every earlier product keeps its index. */
    method AddProduct(newProduct: Product)
      modifies this
      ensures |products| == |old(products)| + 1
      ensures products[..|old(products)|] == old(products)
      ensures products[|old(products)|] == newProduct
    {
      products := products + [newProduct];
    }
  }
}
