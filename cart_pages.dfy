/** cart/add.php: adds one unit of a catalog product to the session cart. */
module CartAdd {
  import opened Common
  import opened CartMap
  import opened Store

  /** The cart after one more unit of `id`: a product not yet in the cart
      gets quantity 1, one already there gets exactly one more, every other
      entry is untouched, and quantities stay at least 1. */
  function AddOne(c: Cart, id: int): (r: Cart)
    requires WellFormed(c)
    ensures WellFormed(r)
    ensures id in r.qty
    ensures id !in c.qty ==> r.qty[id] == 1 && r.ids == c.ids + [id]
    ensures id in c.qty ==> r.qty[id] == c.qty[id] + 1 && r.ids == c.ids
    ensures forall k :: k != id ==> (k in r.qty <==> k in c.qty)
    ensures forall k :: k != id && k in c.qty ==> r.qty[k] == c.qty[k]
    ensures CartMap.Valid(c) ==> CartMap.Valid(r)
  {
    Put(c, id, GetOr(c, id, 0) + 1)
  }

  datatype AddOutcome = RedirectToProductList | RedirectToCartView

  /** A missing, zero or non-integer id, or an id with no product, sends the
      visitor back to the product list with the cart untouched; otherwise the
      (initialised) cart gets one more unit of the product. */
  method Add(s: Session, db: Database, productId: Option<int>) returns (r: AddOutcome)
    requires s.Valid()
    modifies s`cart
    ensures s.Valid()
    ensures r == RedirectToCartView <==> IntGiven(productId) && productId.value in db.products
    ensures r == RedirectToProductList ==> s.cart == old(s.cart)
    ensures r == RedirectToCartView ==> s.cart == Some(AddOne(OrEmpty(old(s.cart)), productId.value))
  {
    if !IntGiven(productId) {
      return RedirectToProductList;
    }
    var id := productId.value;
    if id !in db.products {
      return RedirectToProductList;
    }
    if s.cart.None? {
      s.cart := Some(Empty);
    }
    s.cart := Some(AddOne(s.cart.value, id));
    r := RedirectToCartView;
  }
}

/** cart/update.php: overwrites the quantity of a product already in the cart. */
module CartUpdate {
  import opened Common
  import opened CartMap
  import opened Store

  /** The guard of the update: a truthy id already in the cart, a quantity of
      at least 1, and a product that still exists. */
  predicate UpdateAllowed(cart: Option<Cart>, products: map<int, Product>, productId: Option<int>, quantity: Option<int>) {
    && IntGiven(productId)
    && IntGiven(quantity) && quantity.value >= 1
    && cart.Some? && productId.value in cart.value.qty
    && productId.value in products
  }

  /** A quantity of at least 1 written over an entry keeps every quantity at least 1. */
  lemma UpdateKeepsValid(c: Cart, id: int, q: int)
    requires CartMap.Valid(c)
    requires q >= 1
    ensures CartMap.Valid(Put(c, id, q))
  {
  }

  /** On success the entry holds exactly the submitted quantity and nothing
      else changes (no new key: the id was already in the cart); otherwise the
      cart is untouched. Either way the visitor goes back to the cart view. */
  method Update(s: Session, db: Database, productId: Option<int>, quantity: Option<int>) returns (updated: bool)
    requires s.Valid()
    modifies s`cart
    ensures s.Valid()
    ensures updated <==> old(UpdateAllowed(s.cart, db.products, productId, quantity))
    ensures !updated ==> s.cart == old(s.cart)
    ensures updated ==> s.cart == Some(Put(old(s.cart).value, productId.value, quantity.value))
  {
    if !IntGiven(productId) || !IntGiven(quantity) || quantity.value < 1
      || s.cart.None? || productId.value !in s.cart.value.qty {
      return false;
    }
    if productId.value !in db.products {
      return false;
    }
    UpdateKeepsValid(s.cart.value, productId.value, quantity.value);
    s.cart := Some(Put(s.cart.value, productId.value, quantity.value));
    updated := true;
  }
}

/** cart/remove.php: removes a product from the cart, with no catalog lookup. */
module CartRemove {
  import opened Common
  import opened CartMap
  import opened Store

  /** A removed key keeps every remaining quantity at least 1. */
  lemma RemoveKeepsValid(c: Cart, id: int)
    requires CartMap.Valid(c)
    ensures CartMap.Valid(Unset(c, id))
  {
  }

  /** A falsy id or an id not in the cart leaves the cart untouched;
      otherwise exactly that entry is gone. */
  method Remove(s: Session, productId: Option<int>) returns (removed: bool)
    requires s.Valid()
    modifies s`cart
    ensures s.Valid()
    ensures removed <==> IntGiven(productId) && old(s.cart).Some? && productId.value in old(s.cart).value.qty
    ensures !removed ==> s.cart == old(s.cart)
    ensures removed ==> s.cart == Some(Unset(old(s.cart).value, productId.value))
  {
    if !IntGiven(productId) || s.cart.None? || productId.value !in s.cart.value.qty {
      return false;
    }
    RemoveKeepsValid(s.cart.value, productId.value);
    s.cart := Some(Unset(s.cart.value, productId.value));
    removed := true;
  }
}

/** cart/view.php: initialises the cart and prices its lines. */
module CartView {
  import opened Common
  import opened CartMap
  import opened Store
  import opened CartReader

  /** The cart is set afterwards (empty if it was unset); the items are the
      cart's found products priced from the catalog, and the total is theirs. */
  method View(s: Session, db: Database) returns (items: seq<LineItem>, total: int)
    requires s.Valid()
    modifies s`cart
    ensures s.Valid()
    ensures s.cart == Some(OrEmpty(old(s.cart)))
    ensures items == PricedItems(s.cart.value.ids, s.cart.value.qty, db.products)
    ensures total == Total(items)
  {
    if s.cart.None? {
      s.cart := Some(Empty);
    }
    var c := s.cart.value;
    items, total := [], 0;
    if !IsEmpty(c) {
      items, total := ReadCart(c.ids, c.qty, db.products);
    }
  }
}
