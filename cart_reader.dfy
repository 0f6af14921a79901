/** The catalog/cart reader shared by the cart view, the checkout summary and
    the PayPal initiator: the cart's products that still exist, priced at the
    catalog's current price, and their total. */
module CartReader {
  import opened Common
  import opened CartMap
  import opened Store

  /** One priced cart line: `$cart_items[$product_id]` of the pages. */
  datatype LineItem = LineItem(productId: int, name: string, price: int, quantity: int)

  predicate KeysCovered(ids: seq<int>, qty: map<int, int>) {
    forall id :: id in ids ==> id in qty
  }

  /** Every position of a covered key list holds a key of the map. */
  lemma CoveredAt<V>(ids: seq<int>, m: map<int, V>)
    requires forall id :: id in ids ==> id in m
    ensures forall k :: 0 <= k < |ids| ==> ids[k] in m
  {
    forall k | 0 <= k < |ids|
      ensures ids[k] in m
    {
      var id := ids[k];
      assert id in ids;
    }
  }

  function ItemIds(items: seq<LineItem>): (r: seq<int>)
    ensures |r| == |items|
    ensures forall k :: 0 <= k < |items| ==> r[k] == items[k].productId
  {
    seq(|items|, k requires 0 <= k < |items| => items[k].productId)
  }

  /** The cart ids, in cart order, whose product is in the catalog. */
  function FoundIds(ids: seq<int>, products: map<int, Product>): seq<int> {
    if ids == [] then []
    else
      var id := ids[|ids| - 1];
      FoundIds(ids[..|ids| - 1], products) + (if id in products then [id] else [])
  }

  /** The line items of the cart entries `ids` whose product exists; missing
      products are skipped. Every item carries the cart quantity and the
      catalog's name and price, and the items name exactly the found ids. */
  function PricedItems(ids: seq<int>, qty: map<int, int>, products: map<int, Product>): (r: seq<LineItem>)
    requires KeysCovered(ids, qty)
    ensures |r| <= |ids|
    ensures forall k :: 0 <= k < |r| ==>
      && r[k].productId in products
      && r[k].productId in qty
      && r[k].quantity == qty[r[k].productId]
      && r[k].price == products[r[k].productId].price
      && r[k].name == products[r[k].productId].name
    ensures forall id :: id in ItemIds(r) <==> id in ids && id in products
  {
    if ids == [] then []
    else
      var init := PricedItems(ids[..|ids| - 1], qty, products);
      var id := ids[|ids| - 1];
      assert ids == ids[..|ids| - 1] + [id];
      if id in products then
        var r := init + [LineItem(id, products[id].name, products[id].price, qty[id])];
        assert ItemIds(r) == ItemIds(init) + [id];
        r
      else init
  }

  /** Sum of price times quantity over the items. */
  function Total(items: seq<LineItem>): int {
    if items == [] then 0
    else Total(items[..|items| - 1]) + items[|items| - 1].price * items[|items| - 1].quantity
  }

  /** The total written straight over the cart entries: price times quantity
      of every entry whose product exists. */
  function CartSum(ids: seq<int>, qty: map<int, int>, products: map<int, Product>): int
    requires KeysCovered(ids, qty)
  {
    if ids == [] then 0
    else
      var id := ids[0];
      assert id in ids;
      var here := if id in products then products[id].price * qty[id] else 0;
      here + CartSum(ids[1..], qty, products)
  }

  lemma {:induction false} TotalAppend(a: seq<LineItem>, b: seq<LineItem>)
    ensures Total(a + b) == Total(a) + Total(b)
    decreases |b|
  {
    if b == [] {
      assert a + b == a;
    } else {
      var b' := b[..|b| - 1];
      assert a + b == (a + b') + [b[|b| - 1]];
      assert (a + b)[..|a + b| - 1] == a + b';
      TotalAppend(a, b');
    }
  }

  lemma {:induction false} PricedItemsAppend(ids: seq<int>, more: seq<int>, qty: map<int, int>, products: map<int, Product>)
    requires KeysCovered(ids + more, qty)
    ensures KeysCovered(ids, qty) && KeysCovered(more, qty)
    ensures PricedItems(ids + more, qty, products)
         == PricedItems(ids, qty, products) + PricedItems(more, qty, products)
    decreases |more|
  {
    assert forall id :: id in ids ==> id in ids + more;
    assert forall id :: id in more ==> id in ids + more;
    if more == [] {
      assert ids + more == ids;
    } else {
      var more' := more[..|more| - 1];
      assert (ids + more)[..|ids + more| - 1] == ids + more';
      assert forall id :: id in more' ==> id in more;
      PricedItemsAppend(ids, more', qty, products);
    }
  }

  /** The reader's total is the sum, over the cart's entries whose product
      exists, of catalog price times cart quantity. */
  lemma {:induction false} TotalIsCartSum(ids: seq<int>, qty: map<int, int>, products: map<int, Product>)
    requires KeysCovered(ids, qty)
    ensures Total(PricedItems(ids, qty, products)) == CartSum(ids, qty, products)
    decreases |ids|
  {
    if ids != [] {
      var head, tail := ids[..1], ids[1..];
      assert ids == head + tail;
      PricedItemsAppend(head, tail, qty, products);
      TotalAppend(PricedItems(head, qty, products), PricedItems(tail, qty, products));
      assert head[..0] == [];
      TotalIsCartSum(tail, qty, products);
    }
  }

  /** The items come in cart order: their ids are the found cart ids, in order. */
  lemma {:induction false} ItemsInCartOrder(ids: seq<int>, qty: map<int, int>, products: map<int, Product>)
    requires KeysCovered(ids, qty)
    ensures ItemIds(PricedItems(ids, qty, products)) == FoundIds(ids, products)
    decreases |ids|
  {
    if ids != [] {
      var init := ids[..|ids| - 1];
      assert forall id :: id in init ==> id in ids;
      ItemsInCartOrder(init, qty, products);
      var items := PricedItems(init, qty, products);
      var id := ids[|ids| - 1];
      if id in products {
        var item := LineItem(id, products[id].name, products[id].price, qty[id]);
        assert ItemIds(items + [item]) == ItemIds(items) + [id];
      }
    }
  }

  /** When every cart product exists, there is one item per cart entry. */
  lemma {:induction false} AllFoundOnePerEntry(ids: seq<int>, qty: map<int, int>, products: map<int, Product>)
    requires KeysCovered(ids, qty)
    requires forall id :: id in ids ==> id in products
    ensures |PricedItems(ids, qty, products)| == |ids|
    decreases |ids|
  {
    if ids != [] {
      var init := ids[..|ids| - 1];
      assert forall id :: id in init ==> id in ids;
      AllFoundOnePerEntry(init, qty, products);
    }
  }

  /** One more cart entry adds its line item, when its product exists. */
  lemma PricedItemsStep(ids: seq<int>, i: int, qty: map<int, int>, products: map<int, Product>)
    requires KeysCovered(ids, qty)
    requires 0 <= i < |ids|
    ensures KeysCovered(ids[..i], qty) && KeysCovered(ids[..i + 1], qty)
    ensures ids[i] in qty
    ensures var id := ids[i];
      PricedItems(ids[..i + 1], qty, products)
      == PricedItems(ids[..i], qty, products)
         + (if id in products then [LineItem(id, products[id].name, products[id].price, qty[id])] else [])
  {
    assert forall x :: x in ids[..i + 1] ==> x in ids;
    assert forall x :: x in ids[..i] ==> x in ids;
    assert ids[..i + 1][..i] == ids[..i];
    var id := ids[i];
    assert id in ids;
  }

  /** The reader loop of cart/view.php, payment/checkout.php and
      payment/paypal.php: it collects the found products' line items and
      accumulates the total. */
  method ReadCart(ids: seq<int>, qty: map<int, int>, products: map<int, Product>)
    returns (items: seq<LineItem>, total: int)
    requires KeysCovered(ids, qty)
    ensures items == PricedItems(ids, qty, products)
    ensures total == Total(items)
  {
    items, total := [], 0;
    for i := 0 to |ids|
      invariant KeysCovered(ids[..i], qty)
      invariant items == PricedItems(ids[..i], qty, products)
      invariant total == Total(items)
    {
      var id := ids[i];
      PricedItemsStep(ids, i, qty, products);
      if id in products {
        var p := products[id];
        items := items + [LineItem(id, p.name, p.price, qty[id])];
        total := total + p.price * qty[id];
      }
    }
    assert ids[..|ids|] == ids;
  }
}
