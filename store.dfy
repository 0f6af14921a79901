/** The state every page works on: the PHP session `$_SESSION` and the
    store's database tables. Money is held in integer cents. */
module Store {
  import opened Common
  import opened CartMap

  /** A row of `products`; price in cents. */
  datatype Product = Product(name: string, price: int, stock: int, categoryId: int, imageUrl: Option<string>)

  /** A row of `orders` (created_at is not modelled). */
  datatype Order = Order(
    userId: Option<int>,
    email: Option<string>,
    totalAmount: int,
    status: string,
    address: Option<string>,
    phoneNumber: Option<string>)

  /** A row of `order_items`: the price is the one read at capture time. */
  datatype OrderItem = OrderItem(orderId: int, productId: int, quantity: int, unitPrice: int)

  /** A row of `payments`. */
  datatype Payment = Payment(
    orderId: int,
    paymentMethod: string,
    cardType: string,
    cardholderName: string,
    cardLastFour: Option<string>,
    country: string,
    amount: int,
    status: string)

  /** A row of `users`; is_admin is the integer column. */
  datatype User = User(
    email: string,
    passwordHash: string,
    firstName: string,
    lastName: string,
    country: string,
    isAdmin: int)

  /** A row of `user_logs`. */
  datatype UserLog = UserLog(userId: int, ipAddress: string, browser: string, country: string)

  /** The session keys the pages read and write; None is an unset key. */
  class Session {
    var userId: Option<int>
    var csrfToken: Option<string>
    var cart: Option<Cart>
    var guestEmail: Option<string>
    var guestAddress: Option<string>
    var guestPhone: Option<string>
    var paymentTotal: Option<int>
    var paymentUserId: Option<int>
    var paypalOrderId: Option<string>

    /** The cart, when set, is a well-formed ordered array whose quantities are all at least 1. */
    ghost predicate Valid()
      reads this
    {
      cart.Some? ==> CartMap.Valid(cart.value)
    }

    constructor ()
      ensures Valid()
      ensures userId == None && csrfToken == None && cart == None
      ensures guestEmail == None && guestAddress == None && guestPhone == None
      ensures paymentTotal == None && paymentUserId == None && paypalOrderId == None
    {
      userId, csrfToken, cart := None, None, None;
      guestEmail, guestAddress, guestPhone := None, None, None;
      paymentTotal, paymentUserId, paypalOrderId := None, None, None;
    }

    /** Stores a CSRF token only when the session has none; `generated`
        stands for the random token the page would create. */
    method EnsureCsrfToken(generated: string)
      modifies this`csrfToken
      ensures csrfToken == if old(csrfToken).None? then Some(generated) else old(csrfToken)
    {
      if csrfToken.None? {
        csrfToken := Some(generated);
      }
    }
  }

  /** The tables, each keyed by its auto-increment id where the pages use it. */
  class Database {
    var products: map<int, Product>
    var nextProductId: int
    var orders: map<int, Order>
    var nextOrderId: int
    var orderItems: seq<OrderItem>
    var payments: seq<Payment>
    var users: map<int, User>
    var nextUserId: int
    var userLogs: seq<UserLog>

    /** Every id in a keyed table was handed out by its counter, which starts at 1. */
    ghost predicate Valid()
      reads this
    {
      && 1 <= nextProductId && 1 <= nextOrderId && 1 <= nextUserId
      && (forall id :: id in products ==> 1 <= id < nextProductId)
      && (forall id :: id in orders ==> 1 <= id < nextOrderId)
      && (forall id :: id in users ==> 1 <= id < nextUserId)
    }

    constructor ()
      ensures Valid()
      ensures nextProductId == 1 && nextOrderId == 1 && nextUserId == 1
      ensures products == map[] && orders == map[] && users == map[]
      ensures orderItems == [] && payments == [] && userLogs == []
    {
      products, orders, users := map[], map[], map[];
      nextProductId, nextOrderId, nextUserId := 1, 1, 1;
      orderItems, payments, userLogs := [], [], [];
    }
  }
}
