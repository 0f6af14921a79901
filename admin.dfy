/** The checks every admin page starts with: the session user must exist
    and be an admin, and a posted form must carry the session's CSRF token. */
module AdminGuard {
  import opened Common
  import opened Store

  /** The session user is set, has a row, and its is_admin column is truthy. */
  predicate IsAdmin(userId: Option<int>, users: map<int, User>) {
    userId.Some? && userId.value in users && users[userId.value].isAdmin != 0
  }

  /** A token is accepted only when it is set and strictly equal to the
      session's token, which must be set too: with no session token every
      submission is refused. */
  predicate CsrfMatches(posted: Option<string>, stored: Option<string>) {
    posted.Some? && stored.Some? && posted.value == stored.value
  }

  datatype Gate = Admitted | NotLoggedIn | NotAdmin

  /** No session user goes to the login page, a user who is not an admin
      to the product list; only an admin is admitted. */
  function AdminGate(userId: Option<int>, users: map<int, User>): (g: Gate)
    ensures g == Admitted <==> IsAdmin(userId, users)
    ensures g == NotLoggedIn <==> userId.None?
  {
    if userId.None? then NotLoggedIn
    else if !IsAdmin(userId, users) then NotAdmin
    else Admitted
  }
}

/** The order status change shared by admin/orders.php and admin/updated_order.php. */
module OrderStatus {
  import opened Common
  import opened Store

  /** The statuses admin/orders.php accepts. */
  const OrdersPageStatuses: set<string> := {"pending", "completed", "cancelled"}

  /** The statuses admin/updated_order.php accepts. */
  const UpdatePageStatuses: set<string> := {"completed", "shipped", "cancelled"}

  /** The posted order id and status. */
  datatype StatusChange = StatusChange(orderId: Option<int>, status: Option<string>)

  /** A truthy integer order id and a status from the page's list. */
  predicate ChangeAllowed(change: StatusChange, allowed: set<string>) {
    IntGiven(change.orderId) && change.status.Some? && change.status.value in allowed
  }

  /** UPDATE orders SET status WHERE order_id: the named order, when it
      exists, gets the new status and keeps every other column; every other
      order is untouched and no order appears or disappears. */
  function SetStatus(orders: map<int, Order>, id: int, status: string): (r: map<int, Order>)
    ensures r.Keys == orders.Keys
    ensures forall k :: k in orders && k != id ==> r[k] == orders[k]
    ensures id in orders ==> r[id].status == status
    ensures id in orders ==> r[id] == orders[id].(status := status)
  {
    if id in orders then orders[id := orders[id].(status := status)] else orders
  }

  /** The two pages disagree: only the order list may set "pending", only
      the update endpoint may set "shipped". */
  lemma StatusListsDiffer(id: int)
    requires id != 0
    ensures ChangeAllowed(StatusChange(Some(id), Some("pending")), OrdersPageStatuses)
    ensures !ChangeAllowed(StatusChange(Some(id), Some("pending")), UpdatePageStatuses)
    ensures ChangeAllowed(StatusChange(Some(id), Some("shipped")), UpdatePageStatuses)
    ensures !ChangeAllowed(StatusChange(Some(id), Some("shipped")), OrdersPageStatuses)
  {
  }
}

/** admin/orders.php: the order list with its status form. */
module AdminOrders {
  import opened Common
  import opened Store
  import opened AdminGuard
  import opened OrderStatus

  /** A posted status form: its CSRF token and the change. */
  datatype StatusPost = StatusPost(csrfToken: Option<string>, change: StatusChange)

  datatype OrdersOutcome = ToLogin | ToProductList | CsrfRejected | Updated | Page(invalid: bool)

  /** The guard runs first and changes nothing when it refuses. An admin's
      session gets a CSRF token if it has none (`generated` stands for the
      random token). A post with a wrong token is refused; one with a
      truthy order id and a listed status updates that order's status and
      nothing else; any other post reports an error. */
  method HandleOrders(s: Session, db: Database, post: Option<StatusPost>, generated: string) returns (r: OrdersOutcome)
    requires db.Valid()
    modifies s`csrfToken, db`orders
    ensures db.Valid()
    ensures r == ToLogin <==> s.userId.None?
    ensures r == ToProductList <==> s.userId.Some? && !IsAdmin(s.userId, db.users)
    ensures r.ToLogin? || r.ToProductList? ==> unchanged(s) && unchanged(db)
    ensures !(r.ToLogin? || r.ToProductList?) ==>
      s.csrfToken == if old(s.csrfToken).None? then Some(generated) else old(s.csrfToken)
    ensures r.CsrfRejected? <==>
      IsAdmin(s.userId, db.users) && post.Some? && !CsrfMatches(post.value.csrfToken, s.csrfToken)
    ensures r.Updated? <==>
      && IsAdmin(s.userId, db.users) && post.Some? && CsrfMatches(post.value.csrfToken, s.csrfToken)
      && ChangeAllowed(post.value.change, OrdersPageStatuses)
    ensures r.Updated? ==>
      db.orders == SetStatus(old(db.orders), post.value.change.orderId.value, post.value.change.status.value)
    ensures !r.Updated? ==> db.orders == old(db.orders)
    ensures r.Page? ==> (r.invalid <==> post.Some?)
  {
    var gate := AdminGate(s.userId, db.users);
    if gate == NotLoggedIn {
      return ToLogin;
    } else if gate == NotAdmin {
      return ToProductList;
    }
    s.EnsureCsrfToken(generated);
    if post.None? {
      return Page(false);
    }
    var p := post.value;
    if !CsrfMatches(p.csrfToken, s.csrfToken) {
      return CsrfRejected;
    }
    if ChangeAllowed(p.change, OrdersPageStatuses) {
      db.orders := SetStatus(db.orders, p.change.orderId.value, p.change.status.value);
      r := Updated;
    } else {
      r := Page(true);
    }
  }
}

/** admin/updated_order.php: the status endpoint. It acts on POST only and
    checks no CSRF token; the guard it includes (admin/auth.php) is not
    part of this model. */
module UpdatedOrder {
  import opened Common
  import opened Store
  import opened OrderStatus

  datatype UpdateOutcome = NotPost | Updated | Rejected

  /** A request that is not a POST does nothing. A POST with a truthy order
      id and a status from this page's list (which has "shipped" but not
      "pending") updates that order's status and nothing else; any other
      POST is rejected with no change. */
  method HandleUpdate(db: Database, post: Option<StatusChange>) returns (r: UpdateOutcome)
    requires db.Valid()
    modifies db`orders
    ensures db.Valid()
    ensures r == NotPost <==> post.None?
    ensures r == Updated <==> post.Some? && ChangeAllowed(post.value, UpdatePageStatuses)
    ensures r == Updated ==> db.orders == SetStatus(old(db.orders), post.value.orderId.value, post.value.status.value)
    ensures r != Updated ==> db.orders == old(db.orders)
  {
    if post.None? {
      return NotPost;
    }
    var change := post.value;
    if ChangeAllowed(change, UpdatePageStatuses) {
      db.orders := SetStatus(db.orders, change.orderId.value, change.status.value);
      r := Updated;
    } else {
      r := Rejected;
    }
  }
}

/** admin/users.php: the user list with its role form. */
module AdminUsers {
  import opened Common
  import opened Store
  import opened AdminGuard

  /** A posted role form: CSRF token, target user id and the is_admin field. */
  datatype RolePost = RolePost(csrfToken: Option<string>, userId: Option<int>, isAdmin: Option<int>)

  /** The is_admin field normalised: a truthy integer gives 1, anything else 0. */
  function RoleFlag(isAdmin: Option<int>): (r: int)
    ensures r == 0 || r == 1
    ensures r == 1 <==> IntGiven(isAdmin)
  {
    if IntGiven(isAdmin) then 1 else 0
  }

  /** A truthy integer target that is not the acting admin. */
  predicate RoleChangeAllowed(target: Option<int>, self: int) {
    IntGiven(target) && target.value != self
  }

  /** UPDATE users SET is_admin WHERE user_id: only that user's is_admin changes. */
  function SetRole(users: map<int, User>, id: int, flag: int): (r: map<int, User>)
    ensures r.Keys == users.Keys
    ensures forall k :: k in users && k != id ==> r[k] == users[k]
    ensures id in users ==> r[id] == users[id].(isAdmin := flag)
  {
    if id in users then users[id := users[id].(isAdmin := flag)] else users
  }

  /** A role change the page allows never touches the acting admin, who
      therefore stays an admin. */
  lemma AllowedChangeKeepsActingAdmin(users: map<int, User>, self: int, target: Option<int>, isAdmin: Option<int>)
    requires IsAdmin(Some(self), users)
    requires RoleChangeAllowed(target, self)
    ensures IsAdmin(Some(self), SetRole(users, target.value, RoleFlag(isAdmin)))
  {
  }

  datatype UsersOutcome = ToLogin | ToProductList | CsrfRejected | Updated | Page(invalid: bool)

  /** The guard runs first. This page never creates a CSRF token, so a post
      is refused unless an earlier page stored one and the post carries it.
      A post naming another user by a truthy id sets that user's is_admin to
      the normalised flag; one naming the acting admin, or no valid id,
      reports an error and changes nothing. */
  method HandleUsers(s: Session, db: Database, post: Option<RolePost>) returns (r: UsersOutcome)
    requires db.Valid()
    modifies db`users
    ensures db.Valid()
    ensures r == ToLogin <==> s.userId.None?
    ensures r == ToProductList <==> s.userId.Some? && !IsAdmin(s.userId, old(db.users))
    ensures r.CsrfRejected? <==>
      IsAdmin(s.userId, old(db.users)) && post.Some? && !CsrfMatches(post.value.csrfToken, s.csrfToken)
    ensures r.Updated? <==>
      && IsAdmin(s.userId, old(db.users)) && post.Some? && CsrfMatches(post.value.csrfToken, s.csrfToken)
      && RoleChangeAllowed(post.value.userId, s.userId.value)
    ensures r.Updated? ==>
      db.users == SetRole(old(db.users), post.value.userId.value, RoleFlag(post.value.isAdmin))
    ensures !r.Updated? ==> db.users == old(db.users)
    ensures r.Page? ==> (r.invalid <==> post.Some?)
    ensures IsAdmin(s.userId, old(db.users)) ==> IsAdmin(s.userId, db.users)
  {
    var gate := AdminGate(s.userId, db.users);
    if gate == NotLoggedIn {
      return ToLogin;
    } else if gate == NotAdmin {
      return ToProductList;
    }
    if post.None? {
      return Page(false);
    }
    var p := post.value;
    if !CsrfMatches(p.csrfToken, s.csrfToken) {
      return CsrfRejected;
    }
    if RoleChangeAllowed(p.userId, s.userId.value) {
      AllowedChangeKeepsActingAdmin(db.users, s.userId.value, p.userId, p.isAdmin);
      db.users := SetRole(db.users, p.userId.value, RoleFlag(p.isAdmin));
      r := Updated;
    } else {
      r := Page(true);
    }
  }
}

/** admin/products.php: the catalog editor (delete by link, add and edit by form). */
module AdminProducts {
  import opened Common
  import opened Store
  import opened AdminGuard

  /** The delete link's query: present when `delete` is set; the id is None
      when it is not an integer. */
  datatype DeleteQuery = DeleteQuery(id: Option<int>, csrfToken: Option<string>)

  /** The posted product form; price in cents, None when not a number. */
  datatype ProductForm = ProductForm(
    csrfToken: Option<string>,
    productId: Option<int>,
    name: Option<string>,
    price: Option<int>,
    stock: Option<int>,
    categoryId: Option<int>,
    imageUrl: Option<string>)

  /** A delete link with the session's token and a truthy integer id. */
  predicate DeleteAuthorized(del: DeleteQuery, stored: Option<string>) {
    CsrfMatches(del.csrfToken, stored) && IntGiven(del.id)
  }

  /** The save test as written: a truthy name, a positive price, a truthy
      category id, and `$stock >= 0`, which PHP also lets through when the
      stock field is not a valid integer (false >= 0 holds). */
  predicate SaveAcceptedAsWritten(f: ProductForm) {
    && Given(f.name) && f.price.Some? && f.price.value > 0
    && (f.stock.None? || f.stock.value >= 0)
    && IntGiven(f.categoryId)
  }

  /** The stock stored by the page as written: an invalid field is bound as
      false, which becomes 0. */
  function StoredStockAsWritten(stock: Option<int>): int {
    if stock.Some? then stock.value else 0
  }

  /** The save test as intended: the same, with a stock that is a valid
      integer and not negative. */
  predicate SaveAccepted(f: ProductForm) {
    && Given(f.name) && f.price.Some? && f.price.value > 0
    && f.stock.Some? && f.stock.value >= 0
    && IntGiven(f.categoryId)
  }

  /** A form whose stock is not a number ("abc") passes the test as written
      and is stored with stock 0; the intended test refuses it. */
  lemma InvalidStockPassesAsWritten()
    ensures var f := ProductForm(Some("t"), None, Some("Mug"), Some(1299), None, Some(3), None);
      && SaveAcceptedAsWritten(f)
      && StoredStockAsWritten(f.stock) == 0
      && !SaveAccepted(f)
  {
  }

  /** The intended test is the written one restricted to a valid stock, and
      every product it lets through has a stock of at least 0. */
  lemma SaveAcceptedIsStricter(f: ProductForm)
    ensures SaveAccepted(f) <==> SaveAcceptedAsWritten(f) && f.stock.Some?
    ensures SaveAccepted(f) ==> f.stock.value >= 0 && f.price.value > 0
  {
  }

  function ProductOf(f: ProductForm): Product
    requires SaveAccepted(f)
  {
    Product(f.name.value, f.price.value, f.stock.value, f.categoryId.value, f.imageUrl)
  }

  /** A truthy product id updates that row (no row, no change); otherwise a
      new row goes in under the next id. */
  function SaveProduct(products: map<int, Product>, nextId: int, f: ProductForm): (r: (map<int, Product>, int))
    requires SaveAccepted(f)
    ensures IntGiven(f.productId) ==> r.1 == nextId && r.0.Keys == products.Keys
    ensures !IntGiven(f.productId) ==> r.1 == nextId + 1 && r.0.Keys == products.Keys + {nextId}
    ensures var id := if IntGiven(f.productId) then f.productId.value else nextId;
      id in r.0 ==> r.0[id] == ProductOf(f)
  {
    if IntGiven(f.productId) then
      var id := f.productId.value;
      (if id in products then products[id := ProductOf(f)] else products, nextId)
    else
      (products[nextId := ProductOf(f)], nextId + 1)
  }

  /** An edit replaces only the named product; an insert adds exactly one
      product under an id no product had, and leaves the others alone. */
  lemma SaveChangesOneProduct(products: map<int, Product>, nextId: int, f: ProductForm)
    requires SaveAccepted(f)
    requires forall id :: id in products ==> id < nextId
    ensures var (after, next) := SaveProduct(products, nextId, f);
      var id := if IntGiven(f.productId) then f.productId.value else nextId;
      && (forall k :: k != id ==> (k in after <==> k in products))
      && (forall k :: k != id && k in products ==> after[k] == products[k])
      && (id in after ==> after[id] == ProductOf(f))
      && (IntGiven(f.productId) ==> next == nextId && (id in after <==> id in products))
      && (!IntGiven(f.productId) ==>
        next == nextId + 1 && id !in products && id in after && |after| == |products| + 1)
  {
  }

  datatype ProductsOutcome = ToLogin | ToProductList | Deleted | CsrfRejected | Saved | Page(invalid: bool)

  /** The guard runs first; an admin's session gets a CSRF token if it has
      none. A delete link with the session token and a truthy id removes
      that product and nothing else, and ends the request. Otherwise a post
      with a wrong token is refused, and one passing the save test edits or
      inserts one product; any other post reports an error and writes
      nothing. */
  method HandleProducts(s: Session, db: Database, del: Option<DeleteQuery>, post: Option<ProductForm>, generated: string)
    returns (r: ProductsOutcome)
    requires db.Valid()
    modifies s`csrfToken, db`products, db`nextProductId
    ensures db.Valid()
    ensures r == ToLogin <==> s.userId.None?
    ensures r == ToProductList <==> s.userId.Some? && !IsAdmin(s.userId, db.users)
    ensures r.ToLogin? || r.ToProductList? ==> unchanged(s) && unchanged(db)
    ensures !(r.ToLogin? || r.ToProductList?) ==>
      s.csrfToken == if old(s.csrfToken).None? then Some(generated) else old(s.csrfToken)
    ensures r.Deleted? <==> IsAdmin(s.userId, db.users) && del.Some? && DeleteAuthorized(del.value, s.csrfToken)
    ensures r.Deleted? ==>
      db.products == old(db.products) - {del.value.id.value} && db.nextProductId == old(db.nextProductId)
    ensures r.CsrfRejected? <==>
      && IsAdmin(s.userId, db.users) && !r.Deleted?
      && post.Some? && !CsrfMatches(post.value.csrfToken, s.csrfToken)
    ensures r.Saved? <==>
      && IsAdmin(s.userId, db.users) && !r.Deleted?
      && post.Some? && CsrfMatches(post.value.csrfToken, s.csrfToken) && SaveAccepted(post.value)
    ensures r.Saved? ==>
      (db.products, db.nextProductId) == SaveProduct(old(db.products), old(db.nextProductId), post.value)
    ensures !r.Deleted? && !r.Saved? ==>
      db.products == old(db.products) && db.nextProductId == old(db.nextProductId)
    ensures r.Page? ==> (r.invalid <==> post.Some?)
  {
    var gate := AdminGate(s.userId, db.users);
    if gate == NotLoggedIn {
      return ToLogin;
    } else if gate == NotAdmin {
      return ToProductList;
    }
    s.EnsureCsrfToken(generated);
    if del.Some? && DeleteAuthorized(del.value, s.csrfToken) {
      db.products := db.products - {del.value.id.value};
      return Deleted;
    }
    if post.None? {
      return Page(false);
    }
    var f := post.value;
    if !CsrfMatches(f.csrfToken, s.csrfToken) {
      return CsrfRejected;
    }
    if SaveAccepted(f) {
      SaveChangesOneProduct(db.products, db.nextProductId, f);
      var saved := SaveProduct(db.products, db.nextProductId, f);
      db.products, db.nextProductId := saved.0, saved.1;
      r := Saved;
    } else {
      r := Page(true);
    }
  }
}
