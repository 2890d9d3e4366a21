/**
 * The product record of src/core/Product.h: every cart line, undo record and
 * checkout-queue entry is one of these.
 *
 * The C++ class is a value type (it is copied by value into every node), so it is
 * modelled as a datatype; a setter applied to a local copy becomes a functional
 * update of that one field. The price is carried along but never used in
 * arithmetic here (money totals are floating point and are not part of the model).
 */
module Products {

  datatype Product = Product(name: string, price: real, quantity: int, productId: int)

  /** `Product()`: empty name, price 0, quantity 1, product id 0. */
  function DefaultProduct(): (p: Product)
    ensures p.name == "" && p.price == 0.0
    ensures p.quantity == 1 && p.productId == 0
  {
    Product("", 0.0, 1, 0)
  }

  /** `Product(n, p, q = 1, id = 0)`: quantity defaults to 1 and the id to 0. */
  function NewProduct(n: string, p: real, q: int := 1, id: int := 0): (r: Product)
    ensures r.name == n && r.price == p
    ensures r.quantity == q && r.productId == id
  {
    Product(n, p, q, id)
  }

  /** `setName`: only the name changes. */
  function SetName(p: Product, n: string): (r: Product)
    ensures r.name == n
    ensures r.price == p.price && r.quantity == p.quantity && r.productId == p.productId
  {
    p.(name := n)
  }

  /** `setPrice`: only the price changes. */
  function SetPrice(p: Product, price: real): (r: Product)
    ensures r.price == price
    ensures r.name == p.name && r.quantity == p.quantity && r.productId == p.productId
  {
    p.(price := price)
  }

  /** `setQuantity`: only the quantity changes. */
  function SetQuantity(p: Product, q: int): (r: Product)
    ensures r.quantity == q
    ensures r.name == p.name && r.price == p.price && r.productId == p.productId
  {
    p.(quantity := q)
  }

  /** `setProductId`: only the id changes. */
  function SetProductId(p: Product, id: int): (r: Product)
    ensures r.productId == id
    ensures r.name == p.name && r.price == p.price && r.quantity == p.quantity
  {
    p.(productId := id)
  }

  /** `equals` and `operator==`: exact (case-sensitive) comparison of the names
      alone; every product equals itself and the relation is symmetric. */
  function Equals(a: Product, b: Product): (r: bool)
    ensures a == b ==> r
    ensures r <==> b.name == a.name
  {
    a.name == b.name
  }

  /** Equality of products ignores price, quantity and id altogether. */
  lemma EqualsIgnoresOtherFields(a: Product, price: real, q: int, id: int)
    ensures Equals(a, Product(a.name, price, q, id))
    ensures forall b: Product :: Equals(a, b) <==> a.name == b.name
  {
  }

  /** `equals` is an equivalence: reflexive, symmetric and transitive. */
  lemma EqualsIsEquivalence(a: Product, b: Product, c: Product)
    ensures Equals(a, a)
    ensures Equals(a, b) ==> Equals(b, a)
    ensures Equals(a, b) && Equals(b, c) ==> Equals(a, c)
  {
  }
}
