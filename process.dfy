/** payment/process.php: the return page of both providers. It checks that a
    checkout is pending, verifies the payment with the provider, then records
    the order, one item row per cart entry and the payment in one
    transaction, and only after the commit clears the checkout keys of the
    session. */
module Capture {
  import opened Common
  import opened CartMap
  import opened Store
  import opened CartReader
  import Checkout

  /** Stripe's customer_details->address; a component is None when null. */
  datatype StripeAddress = StripeAddress(
    line1: Option<string>,
    line2: Option<string>,
    city: Option<string>,
    state: Option<string>,
    postalCode: Option<string>,
    country: Option<string>)

  /** The card and billing details of the PaymentMethod behind the session. */
  datatype StripeCard = StripeCard(brand: Option<string>, holderName: Option<string>, last4: Option<string>)

  /** What Stripe answers for the checkout session: its payment status, the
      customer address (None when absent), and the card, None when retrieving
      the PaymentIntent or the PaymentMethod raised. */
  datatype StripeAnswer = StripeAnswer(paymentStatus: string, address: Option<StripeAddress>, card: Option<StripeCard>)

  /** What PayPal answers to the capture of the stored order. */
  datatype PayPalAnswer = PayPalAnswer(status: string, givenName: string, surname: string, countryCode: Option<string>)

  /** The request parameters `method` and `session_id` and the providers'
      answers; an answer is None when the SDK call raised. */
  datatype CaptureRequest = CaptureRequest(
    provider: Option<string>,
    sessionId: Option<string>,
    stripe: Option<StripeAnswer>,
    paypal: Option<PayPalAnswer>)

  datatype CaptureError =
    | InvalidMethod
    | InvalidStripeSession
    | InvalidPayPalOrder
    | ProviderError
    | NotCompleted(status: string)
    | InvalidAddress
    | ProductNotFound(productId: int)

  /** The verified payment: what goes into the payments row and the order's address. */
  datatype Billing = Billing(
    paymentMethod: string,
    cardType: string,
    cardholderName: string,
    cardLastFour: Option<string>,
    country: string,
    address: Option<string>)

  /** `$x ?? $default` */
  function OrElse(x: Option<string>, default: string): string {
    if x.Some? then x.value else default
  }

  function AddressParts(a: StripeAddress): seq<Option<string>> {
    [a.line1, a.line2, a.city, a.state, a.postalCode, a.country]
  }

  /** array_filter with !empty(): the set components that are neither "" nor "0", in order. */
  function KeepPresent(parts: seq<Option<string>>): (r: seq<string>)
    ensures |r| <= |parts|
    ensures forall k :: 0 <= k < |r| ==> Truthy(r[k])
    ensures r == [] <==> forall k :: 0 <= k < |parts| ==> !Given(parts[k])
  {
    if parts == [] then []
    else
      var rest := KeepPresent(parts[1..]);
      assert forall k :: 1 <= k < |parts| ==> parts[k] == parts[1..][k - 1];
      if Given(parts[0]) then [parts[0].value] + rest else rest
  }

  /** The filter keeps a component exactly when it is set and truthy. */
  lemma KeepPresentOne(x: Option<string>)
    ensures KeepPresent([x]) == if Given(x) then [x.value] else []
  {
    assert [x][1..] == [];
  }

  /** The filter works component by component: filtering a concatenation
      concatenates the filtered parts, so the kept values keep their order. */
  lemma {:induction false} KeepPresentAppend(p: seq<Option<string>>, q: seq<Option<string>>)
    ensures KeepPresent(p + q) == KeepPresent(p) + KeepPresent(q)
    decreases |p|
  {
    if p == [] {
      assert p + q == q;
    } else {
      assert (p + q)[0] == p[0];
      assert (p + q)[1..] == p[1..] + q;
      KeepPresentAppend(p[1..], q);
    }
  }

  /** implode(): the parts separated by `sep`. A join of non-empty parts
      starts with the first part and is longer than it when there are more. */
  function Join(parts: seq<string>, sep: string): (r: string)
    ensures parts == [] ==> r == ""
    ensures parts != [] ==> |parts[0]| <= |r| && r[..|parts[0]|] == parts[0]
    ensures |parts| >= 2 ==> |r| >= |parts[0]| + |sep|
  {
    if parts == [] then ""
    else if |parts| == 1 then parts[0]
    else parts[0] + sep + Join(parts[1..], sep)
  }

  /** implode() of a single part is that part. */
  lemma JoinOne(x: string, sep: string)
    ensures Join([x], sep) == x
  {
  }

  /** implode() of two non-empty runs of parts is their joins separated by
      one `sep`: every part appears, in order, with `sep` between neighbours. */
  lemma {:induction false} JoinAppend(a: seq<string>, b: seq<string>, sep: string)
    requires a != [] && b != []
    ensures Join(a + b, sep) == Join(a, sep) + sep + Join(b, sep)
    decreases |a|
  {
    assert (a + b)[0] == a[0];
    if |a| == 1 {
      assert (a + b)[1..] == b;
    } else {
      assert (a + b)[1..] == a[1..] + b;
      JoinAppend(a[1..], b, sep);
    }
  }

  const AddressColumnLength := 255

  /** substr($s, 0, $n) */
  function Prefix(s: string, n: nat): (r: string)
    ensures |r| <= n && |r| <= |s|
    ensures |s| <= n ==> r == s
    ensures |s| > n ==> |r| == n
    ensures r == s[..|r|]
  {
    if |s| <= n then s else s[..n]
  }

  /** The billing address Stripe collected: its non-empty components joined
      by ", " and cut to the 255 bytes of the column. */
  function ComposeStripeAddress(a: StripeAddress): (r: string)
    ensures |r| <= AddressColumnLength
    ensures var joined := Join(KeepPresent(AddressParts(a)), ", ");
      && (|joined| <= AddressColumnLength ==> r == joined)
      && (|joined| > AddressColumnLength ==> r == joined[..AddressColumnLength])
  {
    Prefix(Join(KeepPresent(AddressParts(a)), ", "), AddressColumnLength)
  }

  /** Empty and "0" components are dropped and the rest joined in order:
      line 1 "1 Main St", an empty line 2, city "Madrid", no state, postal
      code "0" and country "ES" give "1 Main St, Madrid, ES". */
  lemma ComposeExample()
    ensures ComposeStripeAddress(StripeAddress(Some("1 Main St"), Some(""), Some("Madrid"), None, Some("0"), Some("ES")))
      == "1 Main St, Madrid, ES"
  {
    var a := StripeAddress(Some("1 Main St"), Some(""), Some("Madrid"), None, Some("0"), Some("ES"));
    var parts := AddressParts(a);
    assert parts[1..][1..][1..][1..][1..][1..] == [];
    assert KeepPresent(parts) == ["1 Main St", "Madrid", "ES"];
    var kept := ["1 Main St", "Madrid", "ES"];
    assert kept[1..] == ["Madrid", "ES"];
    assert kept[1..][1..] == ["ES"];
  }

  /** The composed address is a truthy string exactly when at least one
      component is set and is neither "" nor "0". */
  lemma ComposedTruthyIffComponent(a: StripeAddress)
    ensures Truthy(ComposeStripeAddress(a)) <==> exists k :: 0 <= k < 6 && Given(AddressParts(a)[k])
  {
    var kept := KeepPresent(AddressParts(a));
    var r := ComposeStripeAddress(a);
    if kept != [] {
      assert Truthy(kept[0]);
      if |r| == 1 {
        assert |kept| == 1;
        assert r == kept[0];
      } else {
        assert r != "" && r != "0";
      }
    }
  }

  /** The address of a Stripe payment: Stripe's own when any component is
      present, otherwise the guest address when it passes the checkout
      address rule, otherwise none (the capture fails). */
  function StripeBillingAddress(address: Option<StripeAddress>, guestAddress: Option<string>): (r: Option<string>)
    ensures address.Some? && Truthy(ComposeStripeAddress(address.value)) ==>
      r == Some(ComposeStripeAddress(address.value))
    ensures !(address.Some? && Truthy(ComposeStripeAddress(address.value))) ==>
      r == (if Checkout.AddressAccepted(guestAddress) then guestAddress else None)
  {
    var composed := if address.Some? then ComposeStripeAddress(address.value) else "";
    if Truthy(composed) then Some(composed)
    else if Checkout.AddressAccepted(guestAddress) then guestAddress
    else None
  }

  /** The address checkout stores for a guest passes the capture's address
      check, so a guest's capture never fails on the stored address. */
  lemma CheckoutAddressPassesCapture(form: Checkout.GuestForm, validEmail: string -> bool)
    requires Checkout.ValidateGuestInfo(form, validEmail).Ok?
    ensures Checkout.AddressAccepted(Some(Checkout.ValidateGuestInfo(form, validEmail).value.address))
  {
    var stored := Checkout.ValidateGuestInfo(form, validEmail).value.address;
    TrimIdempotent(form.address.value);
    assert stored == Trim(form.address.value);
    assert |Trim(stored)| == |stored| >= 5;
  }

  /** The provider step, before any row is written. A method other than
      "stripe" or "paypal" fails. Stripe needs a truthy session id, an
      answer whose status is "paid", the card details and an address; the
      row takes the card brand and holder ("Unknown" when null), the last
      four digits and the address's country ("Unknown" when null). PayPal
      needs a truthy stored order id, an answer whose status is
      "COMPLETED", and, for a guest, a usable guest address; the row takes
      card type "PayPal", the payer's given name and surname joined by a
      space, no last four digits and the payer's country ("Unknown" when
      null). Each failing check reports its own error. */
  function VerifyPayment(req: CaptureRequest, paypalOrderId: Option<string>, loggedIn: bool, guestAddress: Option<string>)
    : (r: Result<Billing, CaptureError>)
    ensures req.provider != Some("stripe") && req.provider != Some("paypal") ==> r == Err(InvalidMethod)
    ensures r.Ok? ==> req.provider == Some(r.value.paymentMethod)
    // Stripe: each failing check and its error, in the page's order
    ensures req.provider == Some("stripe") ==>
      && (!Given(req.sessionId) ==> r == Err(InvalidStripeSession))
      && (Given(req.sessionId) && req.stripe.None? ==> r == Err(ProviderError))
      && (Given(req.sessionId) && req.stripe.Some? && req.stripe.value.paymentStatus != "paid" ==>
        r == Err(NotCompleted(req.stripe.value.paymentStatus)))
      && (Given(req.sessionId) && req.stripe.Some? && req.stripe.value.paymentStatus == "paid" ==>
        && (req.stripe.value.card.None? ==> r == Err(ProviderError))
        && (req.stripe.value.card.Some? && StripeBillingAddress(req.stripe.value.address, guestAddress).None? ==>
          r == Err(InvalidAddress)))
    // Stripe: success exactly when every check passes, and the row it yields
    ensures req.provider == Some("stripe") ==>
      (r.Ok? <==>
        && Given(req.sessionId)
        && req.stripe.Some? && req.stripe.value.paymentStatus == "paid"
        && req.stripe.value.card.Some?
        && StripeBillingAddress(req.stripe.value.address, guestAddress).Some?)
    ensures req.provider == Some("stripe") && r.Ok? ==>
      var answer := req.stripe.value;
      var card := answer.card.value;
      && r.value.paymentMethod == "stripe"
      && r.value.cardType == OrElse(card.brand, "Unknown")
      && r.value.cardholderName == OrElse(card.holderName, "Unknown")
      && r.value.cardLastFour == card.last4
      && r.value.country == (if answer.address.Some? then OrElse(answer.address.value.country, "Unknown") else "Unknown")
      && r.value.address == StripeBillingAddress(answer.address, guestAddress)
    // PayPal: each failing check and its error, in the page's order
    ensures req.provider == Some("paypal") ==>
      && (!Given(paypalOrderId) ==> r == Err(InvalidPayPalOrder))
      && (Given(paypalOrderId) && req.paypal.None? ==> r == Err(ProviderError))
      && (Given(paypalOrderId) && req.paypal.Some? && req.paypal.value.status != "COMPLETED" ==>
        r == Err(NotCompleted(req.paypal.value.status)))
      && (Given(paypalOrderId) && req.paypal.Some? && req.paypal.value.status == "COMPLETED"
          && !loggedIn && !Checkout.AddressAccepted(guestAddress) ==>
        r == Err(InvalidAddress))
    // PayPal: success exactly when every check passes, and the row it yields
    ensures req.provider == Some("paypal") ==>
      (r.Ok? <==>
        && Given(paypalOrderId)
        && req.paypal.Some? && req.paypal.value.status == "COMPLETED"
        && (loggedIn || Checkout.AddressAccepted(guestAddress)))
    ensures req.provider == Some("paypal") && r.Ok? ==>
      var answer := req.paypal.value;
      && r.value.paymentMethod == "paypal"
      && r.value.cardType == "PayPal"
      && r.value.cardholderName == answer.givenName + " " + answer.surname
      && r.value.cardLastFour.None?
      && r.value.country == OrElse(answer.countryCode, "Unknown")
      && r.value.address == guestAddress
  {
    if req.provider == Some("stripe") then
      if !Given(req.sessionId) then Err(InvalidStripeSession)
      else if req.stripe.None? then Err(ProviderError)
      else
        var answer := req.stripe.value;
        if answer.paymentStatus != "paid" then Err(NotCompleted(answer.paymentStatus))
        else if answer.card.None? then Err(ProviderError)
        else
          var card := answer.card.value;
          var country := if answer.address.Some? then OrElse(answer.address.value.country, "Unknown") else "Unknown";
          var address := StripeBillingAddress(answer.address, guestAddress);
          if address.None? then Err(InvalidAddress)
          else Ok(Billing("stripe", OrElse(card.brand, "Unknown"), OrElse(card.holderName, "Unknown"), card.last4, country, address))
    else if req.provider == Some("paypal") then
      if !Given(paypalOrderId) then Err(InvalidPayPalOrder)
      else if req.paypal.None? then Err(ProviderError)
      else
        var answer := req.paypal.value;
        if answer.status != "COMPLETED" then Err(NotCompleted(answer.status))
        else if !loggedIn && !Checkout.AddressAccepted(guestAddress) then Err(InvalidAddress)
        else
          var name := answer.givenName + " " + answer.surname;
          Ok(Billing("paypal", "PayPal", name, None, OrElse(answer.countryCode, "Unknown"), guestAddress))
    else Err(InvalidMethod)
  }

  /** The position of the first cart entry whose product is gone, or |ids|
      when every product exists. */
  function FirstMissing(ids: seq<int>, products: map<int, Product>): (k: nat)
    ensures k <= |ids|
    ensures k < |ids| ==> ids[k] !in products
    ensures forall j :: 0 <= j < k ==> ids[j] in products
  {
    if ids == [] then 0
    else if ids[0] !in products then 0
    else 1 + FirstMissing(ids[1..], products)
  }

  /** One order_items row per cart entry, in cart order. */
  function OrderItemRows(orderId: int, ids: seq<int>, qty: map<int, int>, products: map<int, Product>)
    : (r: seq<OrderItem>)
    requires KeysCovered(ids, qty)
    requires forall id :: id in ids ==> id in products
    ensures |r| == |ids|
  {
    CoveredAt(ids, qty);
    CoveredAt(ids, products);
    seq(|ids|, k requires 0 <= k < |ids| && ids[k] in qty && ids[k] in products =>
      OrderItem(orderId, ids[k], qty[ids[k]], products[ids[k]].price))
  }

  /** The order_items rows for the cart, or, when an entry's product is
      gone, the id of the first such entry, which aborts the capture. */
  function ItemRows(orderId: int, ids: seq<int>, qty: map<int, int>, products: map<int, Product>)
    : (r: Result<seq<OrderItem>, CaptureError>)
    requires KeysCovered(ids, qty)
    ensures r.Ok? <==> forall id :: id in ids ==> id in products
    ensures r.Err? ==> r.error.ProductNotFound? && r.error.productId in ids && r.error.productId !in products
    ensures r.Err? ==> r.error == ProductNotFound(ids[FirstMissing(ids, products)])
  {
    var k := FirstMissing(ids, products);
    if k < |ids| then Err(ProductNotFound(ids[k]))
    else
      assert forall id :: id in ids ==> id in products by {
        forall id | id in ids ensures id in products {
          var j :| 0 <= j < |ids| && ids[j] == id;
        }
      }
      Ok(OrderItemRows(orderId, ids, qty, products))
  }

  /** Sum of unit price times quantity over order item rows. */
  function ItemsTotal(rows: seq<OrderItem>): int {
    if rows == [] then 0
    else
      var last := rows[|rows| - 1];
      ItemsTotal(rows[..|rows| - 1]) + last.unitPrice * last.quantity
  }

  /** Dropping the last cart entry drops the last item row. */
  lemma OrderItemRowsInit(orderId: int, ids: seq<int>, qty: map<int, int>, products: map<int, Product>)
    requires ids != []
    requires KeysCovered(ids, qty)
    requires forall id :: id in ids ==> id in products
    ensures KeysCovered(ids[..|ids| - 1], qty)
    ensures forall x :: x in ids[..|ids| - 1] ==> x in products
    ensures ids[|ids| - 1] in qty && ids[|ids| - 1] in products
    ensures var id := ids[|ids| - 1];
      OrderItemRows(orderId, ids, qty, products)
      == OrderItemRows(orderId, ids[..|ids| - 1], qty, products) + [OrderItem(orderId, id, qty[id], products[id].price)]
  {
    var init := ids[..|ids| - 1];
    assert forall x :: x in init ==> x in ids;
    var id := ids[|ids| - 1];
    assert id in ids;
  }

  /** When every cart product still exists, the item rows add up to the
      total the reader computes from the same catalog. */
  lemma {:induction false} ItemRowsTotal(orderId: int, ids: seq<int>, qty: map<int, int>, products: map<int, Product>)
    requires KeysCovered(ids, qty)
    requires forall id :: id in ids ==> id in products
    ensures ItemsTotal(OrderItemRows(orderId, ids, qty, products)) == Total(PricedItems(ids, qty, products))
    decreases |ids|
  {
    if ids != [] {
      OrderItemRowsInit(orderId, ids, qty, products);
      var init := ids[..|ids| - 1];
      ItemRowsTotal(orderId, init, qty, products);
      var rows := OrderItemRows(orderId, ids, qty, products);
      assert rows[..|rows| - 1] == OrderItemRows(orderId, init, qty, products);
    }
  }

  /** The checkout keys process.php needs, read from the session. */
  datatype Pending = Pending(
    userId: Option<int>,
    cart: Cart,
    total: int,
    guestEmail: Option<string>,
    guestAddress: Option<string>,
    guestPhone: Option<string>,
    paypalOrderId: Option<string>)

  /** The rows a successful capture writes. */
  datatype Receipt = Receipt(order: Order, items: seq<OrderItem>, payment: Payment)

  /** The session guard: cart and payment_total set and non-empty, and for a
      guest the email, address and phone set. */
  predicate Ready(s: Session)
    reads s
  {
    && s.cart.Some? && !IsEmpty(s.cart.value)
    && s.paymentTotal.Some? && s.paymentTotal.value != 0
    && (s.userId.None? ==> s.guestEmail.Some? && s.guestAddress.Some? && s.guestPhone.Some?)
  }

  function PendingOf(s: Session): Pending
    reads s
    requires Ready(s)
  {
    Pending(s.userId, s.cart.value, s.paymentTotal.value, s.guestEmail, s.guestAddress, s.guestPhone, s.paypalOrderId)
  }

  /** The whole capture as a value: the provider step, then the order row
      (user id for users, guest email for guests, the stored total, status
      "completed", the billing address and the guest phone), the item rows
      and the payment row carrying the stored total. */
  function Plan(p: Pending, products: map<int, Product>, orderId: int, req: CaptureRequest)
    : (r: Result<Receipt, CaptureError>)
    requires WellFormed(p.cart)
    ensures r.Ok? ==>
      && r.value.order.totalAmount == p.total == r.value.payment.amount
      && r.value.payment.orderId == orderId
      && forall k :: 0 <= k < |r.value.items| ==> r.value.items[k].orderId == orderId
    ensures var verified := VerifyPayment(req, p.paypalOrderId, p.userId.Some?, p.guestAddress);
      r.Err? ==>
        || (verified.Err? && r.error == verified.error)
        || (verified.Ok? && r.error.ProductNotFound? && r.error.productId in p.cart.ids && r.error.productId !in products)
  {
    var verified := VerifyPayment(req, p.paypalOrderId, p.userId.Some?, p.guestAddress);
    if verified.Err? then Err(verified.error)
    else
      var rows := ItemRows(orderId, p.cart.ids, p.cart.qty, products);
      if rows.Err? then Err(rows.error)
      else
        var b := verified.value;
        var email := if p.userId.Some? then None else p.guestEmail;
        var order := Order(p.userId, email, p.total, "completed", b.address, p.guestPhone);
        var payment := Payment(orderId, b.paymentMethod, b.cardType, b.cardholderName, b.cardLastFour, b.country, p.total, "completed");
        Ok(Receipt(order, rows.value, payment))
  }

  /** A capture succeeds exactly when the provider confirms the payment and
      every cart product still exists; the order then belongs to the session
      user (or carries the guest email), records the stored total as
      "completed" with the verified address, has one item per cart entry at
      the current price, and the payment row carries the same total, the
      provider as its method, card type "PayPal" and no last four digits for
      PayPal, and the card's last four digits for Stripe. */
  lemma PlanRecords(p: Pending, products: map<int, Product>, orderId: int, req: CaptureRequest)
    requires WellFormed(p.cart)
    ensures var r := Plan(p, products, orderId, req);
      r.Ok? <==>
        VerifyPayment(req, p.paypalOrderId, p.userId.Some?, p.guestAddress).Ok?
        && forall id :: id in p.cart.ids ==> id in products
    ensures var r := Plan(p, products, orderId, req);
      r.Ok? ==>
        && r.value.order.userId == p.userId
        && (p.userId.Some? ==> r.value.order.email.None?)
        && (p.userId.None? ==> r.value.order.email == p.guestEmail)
        && r.value.order.totalAmount == p.total
        && r.value.order.status == "completed"
        && r.value.order.phoneNumber == p.guestPhone
        && r.value.order.address == VerifyPayment(req, p.paypalOrderId, p.userId.Some?, p.guestAddress).value.address
        && r.value.payment.orderId == orderId
        && r.value.payment.amount == p.total
        && r.value.payment.status == "completed"
        && req.provider == Some(r.value.payment.paymentMethod)
        && (r.value.payment.paymentMethod == "paypal" ==>
          r.value.payment.cardType == "PayPal" && r.value.payment.cardLastFour.None?)
        && (r.value.payment.paymentMethod == "stripe" ==>
          r.value.payment.cardLastFour == req.stripe.value.card.value.last4)
        && |r.value.items| == |p.cart.ids|
        && forall k :: 0 <= k < |p.cart.ids| ==>
          && r.value.items[k].orderId == orderId
          && r.value.items[k].productId == p.cart.ids[k]
          && r.value.items[k].quantity == p.cart.qty[p.cart.ids[k]]
          && r.value.items[k].unitPrice == products[p.cart.ids[k]].price
    ensures var r := Plan(p, products, orderId, req);
      r.Ok? ==>
        var v := VerifyPayment(req, p.paypalOrderId, p.userId.Some?, p.guestAddress).value;
        && r.value.payment.cardType == v.cardType
        && r.value.payment.cardholderName == v.cardholderName
        && r.value.payment.cardLastFour == v.cardLastFour
        && r.value.payment.country == v.country
  {
  }

  /** When the catalog has not changed since checkout stored the total, the
      recorded item rows add up to the order total and the payment amount. */
  lemma RecordedTotalsAgree(p: Pending, products: map<int, Product>, orderId: int, req: CaptureRequest)
    requires WellFormed(p.cart)
    requires Plan(p, products, orderId, req).Ok?
    requires p.total == Total(PricedItems(p.cart.ids, p.cart.qty, products))
    ensures var receipt := Plan(p, products, orderId, req).value;
      ItemsTotal(receipt.items) == receipt.order.totalAmount == receipt.payment.amount
  {
    PlanRecords(p, products, orderId, req);
    ItemRowsTotal(orderId, p.cart.ids, p.cart.qty, products);
  }

  /** The result page as written: `$success` is set once the provider step
      passes and `$order_id` right after the order insert, so the success
      message shows whenever the payment was verified. */
  function PageShowsSuccessAsWritten(p: Pending, req: CaptureRequest): bool {
    VerifyPayment(req, p.paypalOrderId, p.userId.Some?, p.guestAddress).Ok?
  }

  /** A logged-in user pays with PayPal for a product that was deleted after
      checkout: the item loop aborts and the transaction is rolled back, yet
      the page as written announces a completed payment. */
  lemma SuccessShownAfterRollback()
    ensures var p := Pending(Some(1), Cart([7], map[7 := 1]), 1000, None, None, None, Some("PAYPAL-ORDER"));
      var req := CaptureRequest(Some("paypal"), None, None, Some(PayPalAnswer("COMPLETED", "Ana", "Ruiz", None)));
      && PageShowsSuccessAsWritten(p, req)
      && Plan(p, map[], 1, req) == Err(ProductNotFound(7))
  {
    var p := Pending(Some(1), Cart([7], map[7 := 1]), 1000, None, None, None, Some("PAYPAL-ORDER"));
    assert p.cart.ids[0] == 7;
  }

  datatype CaptureOutcome = RedirectToCart | Completed(orderId: int) | Failed(error: CaptureError)

  /** The item loop inside the transaction: one row per cart entry until the
      first entry whose product is gone, which it reports. */
  method InsertItems(db: Database, orderId: int, c: Cart) returns (missing: Option<int>)
    requires WellFormed(c)
    modifies db`orderItems
    ensures var rows := ItemRows(orderId, c.ids, c.qty, db.products);
      && (missing.None? <==> rows.Ok?)
      && (rows.Ok? ==> db.orderItems == old(db.orderItems) + rows.value)
      && (rows.Err? ==> rows.error == ProductNotFound(missing.value))
  {
    for i := 0 to |c.ids|
      invariant KeysCovered(c.ids[..i], c.qty)
      invariant forall j :: 0 <= j < i ==> c.ids[j] in db.products
      invariant forall id :: id in c.ids[..i] ==> id in db.products
      invariant db.orderItems == old(db.orderItems) + OrderItemRows(orderId, c.ids[..i], c.qty, db.products)
    {
      var id := c.ids[i];
      assert c.ids[..i + 1] == c.ids[..i] + [id];
      assert id in c.ids;
      if id !in db.products {
        assert FirstMissing(c.ids, db.products) == i;
        return Some(id);
      }
      ghost var before := OrderItemRows(orderId, c.ids[..i], c.qty, db.products);
      db.orderItems := db.orderItems + [OrderItem(orderId, id, c.qty[id], db.products[id].price)];
      assert OrderItemRows(orderId, c.ids[..i + 1], c.qty, db.products)
          == before + [OrderItem(orderId, id, c.qty[id], db.products[id].price)];
    }
    assert c.ids[..|c.ids|] == c.ids;
    missing := None;
  }

  /** The transaction once the payment is verified: the order row under
      the next order id, the item rows and the payment row, all rolled back
      when an item's product is gone (the counter stays advanced). */
  method RecordOrder(db: Database, c: Cart, order: Order, b: Billing, total: int) returns (orderId: int, missing: Option<int>)
    requires db.Valid() && WellFormed(c)
    modifies db`orders, db`nextOrderId, db`orderItems, db`payments
    ensures db.Valid()
    ensures orderId == old(db.nextOrderId) && db.nextOrderId == orderId + 1
    ensures var rows := ItemRows(orderId, c.ids, c.qty, db.products);
      && (missing.None? <==> rows.Ok?)
      && (rows.Ok? ==>
        && db.orders == old(db.orders)[orderId := order]
        && db.orderItems == old(db.orderItems) + rows.value
        && db.payments == old(db.payments)
          + [Payment(orderId, b.paymentMethod, b.cardType, b.cardholderName, b.cardLastFour, b.country, total, "completed")])
      && (rows.Err? ==>
        && rows.error == ProductNotFound(missing.value)
        && db.orders == old(db.orders) && db.orderItems == old(db.orderItems) && db.payments == old(db.payments))
  {
    // begin_transaction: the tables a rollback restores
    var savedOrders, savedItems, savedPayments := db.orders, db.orderItems, db.payments;
    orderId := db.nextOrderId;
    db.orders := db.orders[orderId := order];
    db.nextOrderId := db.nextOrderId + 1;
    missing := InsertItems(db, orderId, c);
    if missing.Some? {
      db.orders, db.orderItems, db.payments := savedOrders, savedItems, savedPayments;
      return;
    }
    db.payments := db.payments + [Payment(orderId, b.paymentMethod, b.cardType, b.cardholderName, b.cardLastFour, b.country, total, "completed")];
  }

  /** The try block of the page: the provider step, then the order, item
      and payment rows in one transaction. It commits exactly the rows of
      Plan under the next order id, or reports Plan's error with the order,
      item and payment tables as they were (the order counter stays
      advanced once an order was inserted). */
  method Transact(db: Database, p: Pending, req: CaptureRequest) returns (r: Result<int, CaptureError>)
    requires db.Valid() && WellFormed(p.cart)
    modifies db`orders, db`nextOrderId, db`orderItems, db`payments
    ensures db.Valid()
    ensures old(db.nextOrderId) <= db.nextOrderId <= old(db.nextOrderId) + 1
    ensures var plan := Plan(p, db.products, old(db.nextOrderId), req);
      && (r.Ok? <==> plan.Ok?)
      && (r.Err? ==>
        && r.error == plan.error
        && db.orders == old(db.orders) && db.orderItems == old(db.orderItems) && db.payments == old(db.payments))
      && (r.Ok? ==>
        && r.value == old(db.nextOrderId)
        && db.orders == old(db.orders)[r.value := plan.value.order]
        && db.orderItems == old(db.orderItems) + plan.value.items
        && db.payments == old(db.payments) + [plan.value.payment])
  {
    var verified := VerifyPayment(req, p.paypalOrderId, p.userId.Some?, p.guestAddress);
    if verified.Err? {
      return Err(verified.error);
    }
    var b := verified.value;
    var email := if p.userId.Some? then None else p.guestEmail;
    var order := Order(p.userId, email, p.total, "completed", b.address, p.guestPhone);
    var orderId, missing := RecordOrder(db, p.cart, order, b, p.total);
    if missing.Some? {
      return Err(ProductNotFound(missing.value));
    }
    r := Ok(orderId);
  }

  /** A session without a pending checkout goes back to the cart untouched.
      Otherwise the capture commits exactly the rows of Plan under the next
      order id, or fails with Plan's error, rolls the order, item and payment
      tables back and leaves the session alone (the order counter stays
      advanced once an order was inserted). Only after the commit are the
      cart, payment total, PayPal order id and guest keys cleared. */
  method Capture(s: Session, db: Database, req: CaptureRequest) returns (r: CaptureOutcome)
    requires s.Valid() && db.Valid()
    modifies s`cart, s`paymentTotal, s`paypalOrderId, s`guestEmail, s`guestAddress, s`guestPhone
    modifies db`orders, db`nextOrderId, db`orderItems, db`payments
    ensures s.Valid() && db.Valid()
    ensures r.RedirectToCart? <==> !old(Ready(s))
    ensures r.RedirectToCart? ==> unchanged(s) && unchanged(db)
    ensures r.Failed? ==> unchanged(s)
    ensures r.Failed? ==>
      db.orders == old(db.orders) && db.orderItems == old(db.orderItems) && db.payments == old(db.payments)
    ensures old(db.nextOrderId) <= db.nextOrderId <= old(db.nextOrderId) + 1
    ensures !r.RedirectToCart? ==>
      var plan := old(Plan(PendingOf(s), db.products, db.nextOrderId, req));
      && (r.Completed? <==> plan.Ok?)
      && (r.Failed? ==> r.error == plan.error)
      && (r.Completed? ==>
        && r.orderId == old(db.nextOrderId)
        && db.orders == old(db.orders)[r.orderId := plan.value.order]
        && db.orderItems == old(db.orderItems) + plan.value.items
        && db.payments == old(db.payments) + [plan.value.payment])
    ensures r.Completed? ==>
      && s.cart.None? && s.paymentTotal.None? && s.paypalOrderId.None?
      && s.guestEmail.None? && s.guestAddress.None? && s.guestPhone.None?
  {
    if !Ready(s) {
      return RedirectToCart;
    }
    var p := PendingOf(s);
    ghost var plan := Plan(p, db.products, db.nextOrderId, req);
    var result := Transact(db, p, req);
    assert result.Ok? <==> plan.Ok?;
    if result.Err? {
      return Failed(result.error);
    }
    // committed: clear the checkout keys
    s.cart, s.paymentTotal, s.paypalOrderId := None, None, None;
    s.guestEmail, s.guestAddress, s.guestPhone := None, None, None;
    r := Completed(result.value);
  }
}
