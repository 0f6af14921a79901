/** payment/stripe.php: builds the Stripe Checkout session request from the
    cart and sends the visitor to Stripe's hosted page. */
module StripeInit {
  import opened Common
  import opened CartMap
  import opened Store
  import opened CartReader

  /** One entry of `line_items`: the unit amount is in cents, which is the
      catalog price as this model stores it. */
  datatype StripeLineItem = StripeLineItem(currency: string, name: string, unitAmount: int, quantity: int)

  /** The parameters of Session::create that the page fixes. */
  datatype SessionRequest = SessionRequest(
    paymentMethodTypes: seq<string>,
    lineItems: seq<StripeLineItem>,
    mode: string,
    billingAddressCollection: string)

  function ToStripeItem(item: LineItem): StripeLineItem {
    StripeLineItem("eur", item.name, item.price, item.quantity)
  }

  function StripeItems(items: seq<LineItem>): (r: seq<StripeLineItem>)
    ensures |r| == |items|
  {
    seq(|items|, k requires 0 <= k < |items| => ToStripeItem(items[k]))
  }

  lemma StripeItemsAppend(items: seq<LineItem>, item: LineItem)
    ensures StripeItems(items + [item]) == StripeItems(items) + [ToStripeItem(item)]
  {
  }

  /** What Stripe charges: unit amount times quantity over the line items. */
  function Charged(lineItems: seq<StripeLineItem>): int {
    if lineItems == [] then 0
    else
      var last := lineItems[|lineItems| - 1];
      Charged(lineItems[..|lineItems| - 1]) + last.unitAmount * last.quantity
  }

  /** Stripe charges exactly the reader's total for the same cart and catalog. */
  lemma {:induction false} ChargedIsTotal(items: seq<LineItem>)
    ensures Charged(StripeItems(items)) == Total(items)
    decreases |items|
  {
    if items != [] {
      var init := items[..|items| - 1];
      assert StripeItems(items)[..|items| - 1] == StripeItems(init);
      ChargedIsTotal(init);
    }
  }

  /** One line item per cart entry whose product exists, in cart order, each
      in euros, priced at the catalog price and carrying the cart quantity. */
  lemma LineItemsOfCart(c: Cart, products: map<int, Product>)
    requires WellFormed(c)
    ensures var items := PricedItems(c.ids, c.qty, products);
      var lineItems := StripeItems(items);
      && ItemIds(items) == FoundIds(c.ids, products)
      && forall k :: 0 <= k < |lineItems| ==>
        && lineItems[k].currency == "eur"
        && items[k].productId in c.qty && items[k].productId in products
        && lineItems[k].quantity == c.qty[items[k].productId]
        && lineItems[k].unitAmount == products[items[k].productId].price
  {
    ItemsInCartOrder(c.ids, c.qty, products);
  }

  /** The page's loop over the cart: one line item per entry whose product
      is found, missing products skipped. */
  method BuildLineItems(c: Cart, products: map<int, Product>) returns (lineItems: seq<StripeLineItem>)
    requires WellFormed(c)
    ensures lineItems == StripeItems(PricedItems(c.ids, c.qty, products))
  {
    lineItems := [];
    for i := 0 to |c.ids|
      invariant lineItems == StripeItems(PricedItems(c.ids[..i], c.qty, products))
    {
      var id := c.ids[i];
      PricedItemsStep(c.ids, i, c.qty, products);
      if id in products {
        var p := products[id];
        StripeItemsAppend(PricedItems(c.ids[..i], c.qty, products), LineItem(id, p.name, p.price, c.qty[id]));
        lineItems := lineItems + [StripeLineItem("eur", p.name, p.price, c.qty[id])];
      }
    }
    assert c.ids[..|c.ids|] == c.ids;
  }

  datatype StripeStart =
    | RedirectToCart
    | RedirectToStripe(request: SessionRequest, url: string)
    | BackToCheckout(request: SessionRequest)

  /** An unset or empty cart, or an unset payment total, goes back to the
      cart before Stripe is called. Otherwise the request carries the cart's
      line items, card payment, payment mode and required billing address;
      `created` is Stripe's answer (the hosted page's url, or None when the
      call raised), and a failure goes back to checkout. The page writes
      nothing to the session. */
  method Initiate(s: Session, db: Database, created: Option<string>) returns (r: StripeStart)
    requires s.Valid()
    ensures r.RedirectToCart? <==> s.cart.None? || IsEmpty(s.cart.value) || s.paymentTotal.None?
    ensures !r.RedirectToCart? ==>
      && r.request.lineItems == StripeItems(PricedItems(s.cart.value.ids, s.cart.value.qty, db.products))
      && r.request.paymentMethodTypes == ["card"]
      && r.request.mode == "payment"
      && r.request.billingAddressCollection == "required"
    ensures r.RedirectToStripe? <==> !r.RedirectToCart? && created.Some?
    ensures r.RedirectToStripe? ==> r.url == created.value
  {
    if s.cart.None? || IsEmpty(s.cart.value) || s.paymentTotal.None? {
      return RedirectToCart;
    }
    var lineItems := BuildLineItems(s.cart.value, db.products);
    var request := SessionRequest(["card"], lineItems, "payment", "required");
    if created.Some? {
      r := RedirectToStripe(request, created.value);
    } else {
      r := BackToCheckout(request);
    }
  }
}

/** payment/paypal.php: creates a PayPal order for the cart and sends the
    visitor to PayPal's approval page, remembering the PayPal order id. */
module PayPalInit {
  import opened Common
  import opened CartMap
  import opened Store
  import opened CartReader

  datatype Link = Link(rel: string, href: string)

  /** PayPal's answer to the order creation; CreateFailed when the call raised. */
  datatype CreateResponse = CreateFailed | Created(id: string, links: seq<Link>)

  /** One entry of `items`: unit amount in cents (the page formats it with two decimals). */
  datatype PayPalItem = PayPalItem(name: string, currency: string, unitValue: int, quantity: int)

  /** The order body: intent, currency, amount, its item_total breakdown and the items. */
  datatype OrderRequest = OrderRequest(intent: string, currency: string, value: int, itemTotal: int, items: seq<PayPalItem>)

  function ToPayPalItem(item: LineItem): PayPalItem {
    PayPalItem(item.name, "USD", item.price, item.quantity)
  }

  /** The items of the order: one per found product, priced at its catalog
      price and carrying its cart quantity. */
  function PayPalItems(items: seq<LineItem>): (r: seq<PayPalItem>)
    ensures |r| == |items|
    ensures forall k :: 0 <= k < |r| ==>
      && r[k].name == items[k].name && r[k].currency == "USD"
      && r[k].unitValue == items[k].price && r[k].quantity == items[k].quantity
  {
    seq(|items|, k requires 0 <= k < |items| => ToPayPalItem(items[k]))
  }

  /** The index of the first link with the given rel, or |links| when there is none. */
  function FirstWithRel(links: seq<Link>, rel: string): (k: nat)
    ensures k <= |links|
    ensures k < |links| ==> links[k].rel == rel
    ensures forall j :: 0 <= j < k ==> links[j].rel != rel
  {
    if links == [] then 0
    else if links[0].rel == rel then 0
    else 1 + FirstWithRel(links[1..], rel)
  }

  /** The loop over the response's links that stops at the first "approve". */
  method FindApproveUrl(links: seq<Link>) returns (url: Option<string>)
    ensures url.Some? <==> exists j :: 0 <= j < |links| && links[j].rel == "approve"
    ensures url.Some? ==> url.value == links[FirstWithRel(links, "approve")].href
  {
    var i := 0;
    while i < |links| && links[i].rel != "approve"
      invariant 0 <= i <= |links|
      invariant forall j :: 0 <= j < i ==> links[j].rel != "approve"
    {
      i := i + 1;
    }
    if i < |links| {
      assert FirstWithRel(links, "approve") == i;
      url := Some(links[i].href);
    } else {
      url := None;
    }
  }

  datatype PayPalError = ConfigurationError | DatabaseError | ProviderError | NoApproveLink

  datatype PayPalStart =
    | RedirectToCart
    | RedirectToCheckout
    | RedirectToApproval(url: string)
    | Failed(error: PayPalError)

  /** The redirects happen first: an unset or empty cart or an unset payment
      total goes to the cart, a guest without an email to checkout.
      `clientOk` and `queryOk` say whether the client setup and the product
      query succeeded; when both did, the order body carries the recomputed
      total as amount and item total and one item per found product, and
      `response` is PayPal's answer. The PayPal order id is stored exactly
      when the first approve link has a truthy href; nothing else changes. */
  method Initiate(s: Session, db: Database, clientOk: bool, queryOk: bool, response: CreateResponse)
    returns (r: PayPalStart, request: Option<OrderRequest>)
    requires s.Valid()
    modifies s`paypalOrderId
    ensures s.Valid()
    ensures r.RedirectToCart? <==> s.cart.None? || IsEmpty(s.cart.value) || s.paymentTotal.None?
    ensures r.RedirectToCheckout? <==> !r.RedirectToCart? && s.userId.None? && s.guestEmail.None?
    ensures request.Some? <==> !r.RedirectToCart? && !r.RedirectToCheckout? && clientOk && queryOk
    ensures request.Some? ==>
      var items := PricedItems(s.cart.value.ids, s.cart.value.qty, db.products);
      request.value == OrderRequest("CAPTURE", "USD", Total(items), Total(items), PayPalItems(items))
    ensures r == Failed(DatabaseError) <==> !r.RedirectToCart? && !r.RedirectToCheckout? && !queryOk
    ensures r == Failed(ConfigurationError) <==> !r.RedirectToCart? && !r.RedirectToCheckout? && queryOk && !clientOk
    ensures r == Failed(ProviderError) <==> request.Some? && response.CreateFailed?
    ensures r.RedirectToApproval? <==>
      && request.Some? && response.Created?
      && FirstWithRel(response.links, "approve") < |response.links|
      && Truthy(response.links[FirstWithRel(response.links, "approve")].href)
    ensures r.RedirectToApproval? ==> r.url == response.links[FirstWithRel(response.links, "approve")].href
    ensures s.paypalOrderId == if r.RedirectToApproval? then Some(response.id) else old(s.paypalOrderId)
  {
    if s.cart.None? || IsEmpty(s.cart.value) || s.paymentTotal.None? {
      return RedirectToCart, None;
    }
    if s.userId.None? && s.guestEmail.None? {
      return RedirectToCheckout, None;
    }
    if !queryOk {
      return Failed(DatabaseError), None;
    }
    var c := s.cart.value;
    var items, total := ReadCart(c.ids, c.qty, db.products);
    if !clientOk {
      return Failed(ConfigurationError), None;
    }
    var body := OrderRequest("CAPTURE", "USD", total, total, PayPalItems(items));
    request := Some(body);
    if response.CreateFailed? {
      return Failed(ProviderError), request;
    }
    var url := FindApproveUrl(response.links);
    if url.Some? && Truthy(url.value) {
      s.paypalOrderId := Some(response.id);
      r := RedirectToApproval(url.value);
    } else {
      r := Failed(NoApproveLink);
    }
  }
}
