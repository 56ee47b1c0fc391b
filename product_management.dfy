/** The admin product list: add, edit and delete, with the add dialog and
    the product being edited. */
module ProductManagement {
  import opened Wrappers
  import Seqs

  datatype AdminProduct = AdminProduct(id: string, name: string, description: string, price: int, image: string, category: string)

  const InitialProducts: seq<AdminProduct> := [
    AdminProduct("1", "Fresh Cow Milk", "Pure and fresh cow milk delivered daily", 45, "/assets/cow-milk.jpg", "Milk"),
    AdminProduct("2", "Buffalo Milk", "Rich and creamy buffalo milk with high fat content", 60, "/assets/buffalo-milk.jpg", "Milk"),
    AdminProduct("3", "Low-Fat Milk", "Low-fat milk option for health-conscious customers", 50, "/assets/low-fat-milk.jpg", "Milk")
  ]

  /** `handleAddProduct`'s list: the submission, under the new id, at the end. */
  function WithAdded(products: seq<AdminProduct>, submitted: AdminProduct, newId: string): (r: seq<AdminProduct>)
    ensures |r| == |products| + 1 && r[..|products|] == products
    ensures r[|products|].id == newId && r[|products|].(id := submitted.id) == submitted
  {
    products + [submitted.(id := newId)]
  }

  function ReplaceMatching(product: AdminProduct): AdminProduct -> AdminProduct {
    (p: AdminProduct) => if p.id == product.id then product else p
  }

  /** `handleEditProduct`'s list: every product with the submitted id is
      replaced by the submission, the others stay where they are. */
  function WithEdited(products: seq<AdminProduct>, product: AdminProduct): (r: seq<AdminProduct>)
    ensures |r| == |products|
    ensures forall i :: 0 <= i < |products| && products[i].id == product.id ==> r[i] == product
    ensures forall i :: 0 <= i < |products| && products[i].id != product.id ==> r[i] == products[i]
  {
    Seqs.Map(products, ReplaceMatching(product))
  }

  lemma EditOfUnknownId(products: seq<AdminProduct>, product: AdminProduct)
    requires forall i :: 0 <= i < |products| ==> products[i].id != product.id
    ensures WithEdited(products, product) == products
  {
  }

  /** Editing with the same submission again changes nothing more. */
  lemma EditIdempotent(products: seq<AdminProduct>, product: AdminProduct)
    ensures WithEdited(WithEdited(products, product), product) == WithEdited(products, product)
  {
  }

  function NotId(id: string): AdminProduct -> bool {
    (p: AdminProduct) => p.id != id
  }

  /** `handleDeleteProduct`'s list. */
  function WithoutProduct(products: seq<AdminProduct>, id: string): (r: seq<AdminProduct>)
    ensures forall i :: 0 <= i < |r| ==> r[i] in products && r[i].id != id
    ensures forall i :: (0 <= i < |products| && products[i].id != id) ==> products[i] in r
    ensures forall x :: multiset(r)[x] == if x.id != id then multiset(products)[x] else 0
  {
    Seqs.FilterMultiset(products, NotId(id));
    Seqs.Filter(products, NotId(id))
  }

  lemma DeleteProductFacts(products: seq<AdminProduct>, id: string)
    ensures Seqs.SubsequenceOf(WithoutProduct(products, id), products)
    ensures WithoutProduct(WithoutProduct(products, id), id) == WithoutProduct(products, id)
  {
    Seqs.FilterIsSubsequence(products, NotId(id));
    Seqs.FilterIdempotent(products, NotId(id));
  }

  class ProductAdmin {
    var products: seq<AdminProduct>
    var isAddProductOpen: bool
    var editingProduct: Option<AdminProduct>

    constructor ()
      ensures products == InitialProducts && !isAddProductOpen && editingProduct == None
    {
      products := InitialProducts;
      isAddProductOpen := false;
      editingProduct := None;
    }

    /** The add dialog's `onOpenChange`. */
    method SetAddProductOpen(open: bool)
      modifies this`isAddProductOpen
      ensures isAddProductOpen == open
    {
      isAddProductOpen := open;
    }

    /** The Edit button opens the edit dialog for `product`. */
    method StartEditing(product: AdminProduct)
      modifies this`editingProduct
      ensures editingProduct == Some(product)
    {
      editingProduct := Some(product);
    }

    /** `newId` stands for `Date.now()`. */
    method AddProduct(submitted: AdminProduct, newId: string)
      modifies this`products, this`isAddProductOpen
      ensures products == WithAdded(old(products), submitted, newId)
      ensures !isAddProductOpen
    {
      products := products + [submitted.(id := newId)];
      isAddProductOpen := false;
    }

    method EditProduct(product: AdminProduct)
      modifies this`products, this`editingProduct
      ensures products == WithEdited(old(products), product)
      ensures editingProduct == None
    {
      products := WithEdited(products, product);
      editingProduct := None;
    }

    method DeleteProduct(id: string)
      modifies this`products
      ensures products == WithoutProduct(old(products), id)
    {
      products := WithoutProduct(products, id);
    }
  }
}
