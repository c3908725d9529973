/**
 * The two fixed tables of the server: the fichas packages sold through PayPal
 * (`create-order`) and the products that can be redeemed for fichas (`canjear-producto`).
 */
module Catalogue {
  import opened Wrappers

  /** A package: its index, the fichas it credits and its price in US cents. */
  datatype Package = Package(id: int, fichas: nat, priceCents: nat)

  const Packages: seq<Package> := [
    Package(0, 100, 500),
    Package(1, 250, 1000),
    Package(2, 500, 2000),
    Package(3, 1000, 3500),
    Package(4, 2500, 7500),
    Package(5, 5000, 12000)
  ]

  /** `paquetes[paqueteId]`: exactly the ids 0 to 5 name a package, and the package found is
      the one with that id, crediting a positive amount of fichas. */
  function PackageFor(id: int): (r: Option<Package>)
    ensures r.Some? <==> 0 <= id <= 5
    ensures r.Some? ==> r.value in Packages && r.value.id == id && r.value.fichas > 0
  {
    if 0 <= id < |Packages| then Some(Packages[id]) else None
  }

  /** A redeemable product: id, name and price in fichas. */
  datatype Product = Product(id: int, name: string, price: nat)

  const Products: seq<Product> := [
    Product(1, "Teclado Gaming RGB", 500),
    Product(2, "Auriculares Gaming", 300),
    Product(3, "Mousepad XL", 150)
  ]

  /** `Array.prototype.find(p => p.id === id)`: the first product with that id, or nothing
      when no product has it. */
  function Find(products: seq<Product>, id: int): (r: Option<Product>)
    ensures r.Some? ==> r.value in products && r.value.id == id
    decreases |products|
  {
    if products == [] then None
    else if products[0].id == id then Some(products[0])
    else Find(products[1..], id)
  }

  /** Nothing is found exactly when no product has the id. */
  lemma {:induction false} FindNone(products: seq<Product>, id: int)
    ensures Find(products, id).None? <==> forall p :: p in products ==> p.id != id
    decreases |products|
  {
    if products != [] && products[0].id != id {
      FindNone(products[1..], id);
      assert forall p :: p in products ==> p == products[0] || p in products[1..];
    }
  }

  /** The product found is the first one with that id. */
  lemma {:induction false} FindFirst(products: seq<Product>, id: int)
    requires Find(products, id).Some?
    ensures exists i ::
      0 <= i < |products| && products[i] == Find(products, id).value && forall j :: 0 <= j < i ==> products[j].id != id
    decreases |products|
  {
    if products[0].id != id {
      FindFirst(products[1..], id);
      var i :| 0 <= i < |products[1..]| && products[1..][i] == Find(products, id).value
        && forall j :: 0 <= j < i ==> products[1..][j].id != id;
      assert products[i + 1] == Find(products, id).value;
      assert forall j :: 0 <= j < i + 1 ==> products[j].id != id by {
        forall j | 0 <= j < i + 1 ensures products[j].id != id {
          if j > 0 { assert products[j] == products[1..][j - 1]; }
        }
      }
    } else {
      assert products[0] == Find(products, id).value;
    }
  }

  /** The product table accepts the ids 1, 2 and 3 and no other, at the listed prices. */
  lemma ProductTable(id: int)
    ensures Find(Products, id).Some? <==> 1 <= id <= 3
    ensures id == 1 ==> Find(Products, id) == Some(Product(1, "Teclado Gaming RGB", 500))
    ensures id == 2 ==> Find(Products, id) == Some(Product(2, "Auriculares Gaming", 300))
    ensures id == 3 ==> Find(Products, id) == Some(Product(3, "Mousepad XL", 150))
  {
    assert Products[0].id == 1 && Products[1].id == 2 && Products[2].id == 3;
  }
}
