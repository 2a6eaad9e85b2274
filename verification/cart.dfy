/** The point-of-sale cart of the canteen and bookshop screen: one line per
    product with a quantity, merged on repeated adds, and its total in cents. */
module Cart {
  import opened Records
  import opened Collection

  /** A product as it sits in the cart, with the name and price it had when
      it was first added. */
  datatype CartLine = CartLine(id: Id, name: string, price: int, qty: nat)

  type Cart = seq<CartLine>

  ghost predicate DistinctLines(c: Cart) {
    forall i, j :: 0 <= i < j < |c| ==> c[i].id != c[j].id
  }

  /** Every line has a quantity of at least one. */
  ghost predicate PositiveQuantities(c: Cart) {
    forall i :: 0 <= i < |c| ==> c[i].qty >= 1
  }

  /** No line has a negative price or quantity. */
  ghost predicate NonNegativeLines(c: Cart) {
    forall i :: 0 <= i < |c| ==> c[i].price >= 0 && c[i].qty >= 0
  }

  /** Every line stands for a catalogue product with the same id and price. */
  ghost predicate LinesFrom(c: Cart, products: seq<Product>) {
    forall i :: 0 <= i < |c| ==>
      exists j :: 0 <= j < |products| && products[j].id == c[i].id && products[j].fields.price == c[i].price
  }

  /** `cart.find(p => p.id === id)` is truthy. */
  predicate InCart(c: Cart, id: Id) {
    exists i :: 0 <= i < |c| && c[i].id == id
  }

  /** `cart.reduce((acc, item) => acc + item.price * item.qty, 0)`. */
  function Total(c: Cart): int
    decreases |c|
  {
    if c == [] then 0 else Total(c[..|c| - 1]) + c[|c| - 1].price * c[|c| - 1].qty
  }

  /** `cart.reduce((acc, i) => acc + i.qty, 0)`: the item count shown in the
      footer. */
  function ItemCount(c: Cart): nat
    decreases |c|
  {
    if c == [] then 0 else ItemCount(c[..|c| - 1]) + c[|c| - 1].qty
  }

  /** With no negative prices or quantities the total is never negative. */
  lemma {:induction false} TotalNonNegative(c: Cart)
    requires NonNegativeLines(c)
    ensures Total(c) >= 0
    decreases |c|
  {
    if c != [] {
      TotalNonNegative(c[..|c| - 1]);
    }
  }

  /** Every line counts at least once in the footer's item count. */
  lemma {:induction false} ItemCountAtLeastLines(c: Cart)
    requires PositiveQuantities(c)
    ensures ItemCount(c) >= |c|
    decreases |c|
  {
    if c != [] {
      ItemCountAtLeastLines(c[..|c| - 1]);
    }
  }

  /** The sum of the prices of the lines with the given id, and how many such
      lines there are. */
  function PriceOf(c: Cart, id: Id): int
    decreases |c|
  {
    if c == [] then 0
    else PriceOf(c[..|c| - 1], id) + (if c[|c| - 1].id == id then c[|c| - 1].price else 0)
  }

  function Occurrences(c: Cart, id: Id): nat
    decreases |c|
  {
    if c == [] then 0
    else Occurrences(c[..|c| - 1], id) + (if c[|c| - 1].id == id then 1 else 0)
  }

  /** `cart.map(p => p.id === id ? { ...p, qty: p.qty + 1 } : p)`. */
  function Bump(c: Cart, id: Id): (r: Cart)
    ensures |r| == |c|
    ensures forall i :: 0 <= i < |c| && c[i].id == id ==> r[i] == c[i].(qty := c[i].qty + 1)
    ensures forall i :: 0 <= i < |c| && c[i].id != id ==> r[i] == c[i]
    decreases |c|
  {
    if c == [] then []
    else
      var last := c[|c| - 1];
      Bump(c[..|c| - 1], id) + [if last.id == id then last.(qty := last.qty + 1) else last]
  }

  /** The line a product starts with: `{ ...product, qty: 1 }`. */
  function NewLine(p: Product): CartLine {
    CartLine(p.id, p.fields.name, p.fields.price, 1)
  }

  /** `addToCart`: a product already in the cart gets its quantity raised by
      one, every other line staying as it was; a new product is appended with
      quantity one. */
  function AddToCart(c: Cart, p: Product): (r: Cart)
    ensures InCart(c, p.id) ==> |r| == |c|
    ensures InCart(c, p.id) ==> forall i :: 0 <= i < |c| ==>
      r[i] == (if c[i].id == p.id then c[i].(qty := c[i].qty + 1) else c[i])
    ensures !InCart(c, p.id) ==> r == c + [NewLine(p)]
    ensures DistinctLines(c) ==> DistinctLines(r)
    ensures PositiveQuantities(c) ==> PositiveQuantities(r)
  {
    if InCart(c, p.id) then Bump(c, p.id) else c + [NewLine(p)]
  }

  /** Bumping the lines of one id raises the total by their prices and the
      item count by their number. */
  lemma {:induction false} BumpTotals(c: Cart, id: Id)
    ensures Total(Bump(c, id)) == Total(c) + PriceOf(c, id)
    ensures ItemCount(Bump(c, id)) == ItemCount(c) + Occurrences(c, id)
    decreases |c|
  {
    if c != [] {
      var init := c[..|c| - 1];
      BumpTotals(init, id);
      var b := Bump(c, id);
      assert b[..|b| - 1] == Bump(init, id);
    }
  }

  /** In a cart with distinct ids, the one line with a given id contributes
      its own price and count once. */
  lemma {:induction false} SingleLine(c: Cart, k: nat)
    requires DistinctLines(c) && k < |c|
    ensures PriceOf(c, c[k].id) == c[k].price
    ensures Occurrences(c, c[k].id) == 1
    decreases |c|
  {
    var init := c[..|c| - 1];
    if k == |c| - 1 {
      Absent(init, c[k].id);
    } else {
      SingleLine(init, k);
    }
  }

  lemma {:induction false} Absent(c: Cart, id: Id)
    requires forall i :: 0 <= i < |c| ==> c[i].id != id
    ensures PriceOf(c, id) == 0 && Occurrences(c, id) == 0
    decreases |c|
  {
    if c != [] {
      Absent(c[..|c| - 1], id);
    }
  }

  /** Adding a product raises the item count by one, and raises the total by
      the price of the product's line: the existing line's price when the
      product was already in the cart, the product's own price otherwise. */
  lemma AddToCartTotals(c: Cart, p: Product)
    requires DistinctLines(c)
    ensures ItemCount(AddToCart(c, p)) == ItemCount(c) + 1
    ensures !InCart(c, p.id) ==> Total(AddToCart(c, p)) == Total(c) + p.fields.price
    ensures forall k :: 0 <= k < |c| && c[k].id == p.id ==> Total(AddToCart(c, p)) == Total(c) + c[k].price
  {
    if InCart(c, p.id) {
      var k :| 0 <= k < |c| && c[k].id == p.id;
      BumpTotals(c, p.id);
      SingleLine(c, k);
      assert forall k' :: 0 <= k' < |c| && c[k'].id == p.id ==> k' == k;
    } else {
      var r := c + [NewLine(p)];
      assert r[..|r| - 1] == c;
    }
  }

  /** When every line was taken from a catalogue whose ids are distinct,
      adding one of its products raises the total by exactly that product's
      price, and the cart still comes from the catalogue. */
  lemma AddFromCatalogue(c: Cart, products: seq<Product>, p: Product)
    requires Distinct(products) && p in products
    requires DistinctLines(c) && LinesFrom(c, products)
    ensures Total(AddToCart(c, p)) == Total(c) + p.fields.price
    ensures LinesFrom(AddToCart(c, p), products)
  {
    AddToCartTotals(c, p);
    var j0 :| 0 <= j0 < |products| && products[j0] == p;
    forall k | 0 <= k < |c| && c[k].id == p.id
      ensures c[k].price == p.fields.price
    {
      var j :| 0 <= j < |products| && products[j].id == c[k].id && products[j].fields.price == c[k].price;
      assert j == j0;
    }
    var r := AddToCart(c, p);
    if !InCart(c, p.id) {
      assert forall i :: 0 <= i < |c| ==> r[i] == c[i];
      assert products[j0].id == r[|c|].id && products[j0].fields.price == r[|c|].price;
    }
  }
}
