/** The session cart `$_SESSION['cart']`: a PHP ordered array from product id
    to quantity. Writing a new key appends it, writing an existing key keeps
    its position, unset() removes it; iteration follows `ids`. */
module CartMap {
  import opened Common

  datatype Cart = Cart(ids: seq<int>, qty: map<int, int>)

  const Empty: Cart := Cart([], map[])

  predicate Distinct(ids: seq<int>) {
    forall i, j :: 0 <= i < j < |ids| ==> ids[i] != ids[j]
  }

  /** The key list has no repeats and lists exactly the keys of the map. */
  predicate WellFormed(c: Cart) {
    && Distinct(c.ids)
    && (forall id :: id in c.qty ==> id in c.ids)
    && (forall id :: id in c.ids ==> id in c.qty)
  }

  /** What the cart pages keep true of the session cart: every quantity is at least 1. */
  predicate Valid(c: Cart) {
    && WellFormed(c)
    && (forall id :: id in c.qty ==> c.qty[id] >= 1)
  }

  /** The cart a page works on: an unset session cart is initialised to the empty array. */
  function OrEmpty(c: Option<Cart>): Cart {
    if c.Some? then c.value else Empty
  }

  /** PHP's empty() on the array. */
  predicate IsEmpty(c: Cart) {
    c.ids == []
  }

  lemma EmptyHasNoKeys(c: Cart)
    requires WellFormed(c)
    ensures IsEmpty(c) <==> c.qty == map[]
  {
    if !IsEmpty(c) {
      var first := c.ids[0];
      assert first in c.ids;
      assert first in c.qty;
    } else {
      assert forall id :: id !in c.qty;
    }
  }

  /** `$cart[$id] ?? $default` */
  function GetOr(c: Cart, id: int, default: int): int {
    if id in c.qty then c.qty[id] else default
  }

  /** `$cart[$id] = $q`: the entry for id becomes q, every other entry keeps
      its key and value, an existing key keeps its place in the order and a
      new key goes last. */
  function Put(c: Cart, id: int, q: int): (r: Cart)
    requires WellFormed(c)
    ensures WellFormed(r)
    ensures id in r.qty && r.qty[id] == q
    ensures forall k :: k != id ==> (k in r.qty <==> k in c.qty)
    ensures forall k :: k != id && k in c.qty ==> r.qty[k] == c.qty[k]
    ensures id in c.qty ==> r.ids == c.ids
    ensures id !in c.qty ==> r.ids == c.ids + [id]
  {
    Cart(if id in c.qty then c.ids else c.ids + [id], c.qty[id := q])
  }

  /** The key order with one key taken out, the others in their old order. */
  function Without(ids: seq<int>, id: int): (r: seq<int>)
    ensures forall x :: x in r <==> x in ids && x != id
    ensures |r| <= |ids|
    ensures id !in ids ==> r == ids
  {
    if ids == [] then []
    else if ids[0] == id then Without(ids[1..], id)
    else [ids[0]] + Without(ids[1..], id)
  }

  lemma {:induction false} WithoutDistinct(ids: seq<int>, id: int)
    requires Distinct(ids)
    ensures Distinct(Without(ids, id))
    ensures id in ids ==> |Without(ids, id)| == |ids| - 1
  {
    if ids != [] {
      assert Distinct(ids[1..]);
      WithoutDistinct(ids[1..], id);
      if ids[0] == id {
        assert id !in ids[1..];
      } else {
        var tail := Without(ids[1..], id);
        assert ids[0] !in ids[1..];
        assert ids[0] !in tail;
        assert id in ids ==> id in ids[1..];
      }
    }
  }

  /** `unset($cart[$id])`: the key is gone, nothing else changes, and the
      cart has exactly one entry fewer when the key was there. */
  function Unset(c: Cart, id: int): (r: Cart)
    requires WellFormed(c)
    ensures WellFormed(r)
    ensures id !in r.qty
    ensures forall k :: k != id ==> (k in r.qty <==> k in c.qty)
    ensures forall k :: k in r.qty ==> r.qty[k] == c.qty[k]
    ensures id in c.qty ==> |r.qty| == |c.qty| - 1
    ensures id !in c.qty ==> r == c
    ensures r.ids == Without(c.ids, id)
  {
    WithoutDistinct(c.ids, id);
    var m := c.qty - {id};
    assert id in c.qty ==> m.Keys == c.qty.Keys - {id};
    assert id !in c.qty ==> m == c.qty;
    Cart(Without(c.ids, id), m)
  }
}
