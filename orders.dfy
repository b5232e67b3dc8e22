/**
 * The order lifecycle of the orders plugin: a renter asks for a date range
 * on a listing (`pending_review`), confirms it (`submitted`, with a payment
 * session when the gateway hands one back), or cancels it (`cancelled`). The
 * payment webhook, which moves an order to `paid`, lives in the Payments module.
 *
 * Dates are `YYYY-MM-DD` strings that the handlers parse; the parser is the
 * parameter `parse`, a partial map from strings to day numbers, so that date
 * comparisons and differences are integer arithmetic.
 */
module Orders {
  import opened Wrappers
  import opened Text
  import opened Entities
  import opened Http
  import opened Store
  import opened Tables

  /** `NaiveDate::parse_from_str(_, "%Y-%m-%d")`, as a day number when it succeeds. */
  type DateParser = string -> Option<int>

  /** The rent form: `NewOrder { quantity, start_date, end_date }`. */
  datatype RentForm = RentForm(quantity: int, startDate: string, endDate: string)

  /** A form field that is empty once surrounding whitespace is removed. */
  predicate Blank(s: string) {
    Trim(s) == []
  }

  /** The listing with this id, when the Posts table has one. */
  function PostOf(posts: map<int, Post>, id: int): (p: Option<Post>)
    ensures p.Some? <==> id in posts
    ensures p.Some? ==> p.value == posts[id]
  {
    if id in posts then Some(posts[id]) else None
  }

  // ---------------------------------------------------------------------
  // Validation of a rent request
  // ---------------------------------------------------------------------

  datatype RentVerdict = Accepted | BadRequest | PostNotFound

  /**
   * The independent statement of when a rent request is accepted: a positive
   * quantity, non-blank dates that both parse, a non-empty range, and the
   * range inside every bound of the listing that parses (a listing bound that
   * does not parse restricts nothing).
   */
  ghost predicate Rentable(form: RentForm, post: Option<Post>, parse: DateParser) {
    && form.quantity > 0
    && !Blank(form.startDate) && !Blank(form.endDate)
    && post.Some?
    && parse(form.startDate).Some? && parse(form.endDate).Some?
    && parse(form.startDate).value <= parse(form.endDate).value
    && (parse(post.value.availableDate).Some? ==>
          parse(post.value.availableDate).value <= parse(form.startDate).value)
    && (parse(post.value.endDate).Some? ==>
          parse(form.endDate).value <= parse(post.value.endDate).value)
  }

  /**
   * The checks of `rent_request`, in the order the handler makes them: the
   * form fields, then the listing's existence, then the dates.
   */
  function CheckRent(form: RentForm, post: Option<Post>, parse: DateParser): (v: RentVerdict)
    ensures v == Accepted <==> Rentable(form, post, parse)
    ensures v == PostNotFound <==>
      form.quantity > 0 && !Blank(form.startDate) && !Blank(form.endDate) && post.None?
    ensures form.quantity <= 0 || Blank(form.startDate) || Blank(form.endDate) ==> v == BadRequest
    ensures post.Some? && (parse(form.startDate).None? || parse(form.endDate).None?) ==> v == BadRequest
    ensures post.Some? && parse(post.value.availableDate).None? && parse(post.value.endDate).None? ==>
      (v == Accepted <==>
        form.quantity > 0 && !Blank(form.startDate) && !Blank(form.endDate)
        && parse(form.startDate).Some? && parse(form.endDate).Some?
        && parse(form.startDate).value <= parse(form.endDate).value)
  {
    if form.quantity <= 0 || Blank(form.startDate) || Blank(form.endDate) then BadRequest
    else if post.None? then PostNotFound
    else match (parse(form.startDate), parse(form.endDate))
      case (Some(start), Some(end)) =>
        if end < start then BadRequest
        else
          var postStart := parse(post.value.availableDate).GetOr(start);
          var postEnd := parse(post.value.endDate).GetOr(end);
          if start < postStart || end > postEnd then BadRequest else Accepted
      case _ => BadRequest
  }

  // ---------------------------------------------------------------------
  // Day and unit arithmetic
  // ---------------------------------------------------------------------

  /** `(end - start).num_days().max(1)`: a rental is billed for at least one day. */
  function BillableDays(start: int, end: int): (d: int)
    ensures d >= 1 && d >= end - start
    ensures end - start >= 1 ==> d == end - start
    ensures end - start < 1 ==> d == 1
  {
    if end - start > 1 then end - start else 1
  }

  /**
   * The days billed at confirmation: an unparsable start date falls back to
   * `today`, an unparsable end date to the start date.
   */
  function ConfirmDays(o: Order, parse: DateParser, today: int): (d: int)
    ensures d >= 1
    ensures parse(o.endDate).None? ==> d == 1
    ensures parse(o.startDate).Some? && parse(o.endDate).Some? ==>
      d == BillableDays(parse(o.startDate).value, parse(o.endDate).value)
    ensures parse(o.startDate).None? && parse(o.endDate).Some? ==>
      d == BillableDays(today, parse(o.endDate).value)
  {
    var start := parse(o.startDate).GetOr(today);
    var end := parse(o.endDate).GetOr(start);
    BillableDays(start, end)
  }

  /** The days shown on the confirmation page: 1 unless both dates parse. */
  function ConfirmPageDays(o: Order, parse: DateParser): (d: int)
    ensures d >= 1
    ensures parse(o.startDate).None? || parse(o.endDate).None? ==> d == 1
  {
    match (parse(o.startDate), parse(o.endDate))
      case (Some(s), Some(e)) => BillableDays(s, e)
      case _ => 1
  }

  /**
   * The page and the checkout agree on the day count whenever the start
   * date parses; only an unparsable start (billed from `today`) sets them
   * apart.
   */
  lemma DaysAgree(o: Order, parse: DateParser, today: int)
    requires parse(o.startDate).Some?
    ensures ConfirmDays(o, parse, today) == ConfirmPageDays(o, parse)
  {
  }

  /** `i64::saturating_mul`: the exact product, clamped to the i64 range. */
  function SatMulI64(a: int, b: int): (r: int)
    ensures InI64(r)
    ensures InI64(a * b) ==> r == a * b
    ensures a * b > I64_MAX ==> r == I64_MAX
    ensures a * b < I64_MIN ==> r == I64_MIN
  {
    if InI64(a * b) then a * b
    else if (a < 0) == (b < 0) then
      ProductSign(a, b);
      I64_MAX
    else
      ProductSign(a, b);
      I64_MIN
  }

  /** The sign of a product follows the signs of its factors. */
  lemma ProductSign(a: int, b: int)
    ensures a != 0 && b != 0 && (a < 0) == (b < 0) ==> a * b > 0
    ensures a != 0 && b != 0 && (a < 0) != (b < 0) ==> a * b < 0
    ensures a == 0 || b == 0 ==> a * b == 0
  {
    if a < 0 && b < 0 {
      assert a * b == (-a) * (-b);
    } else if a < 0 && b > 0 {
      assert a * b == -((-a) * b);
    } else if a > 0 && b < 0 {
      assert a * b == -(a * (-b));
    }
  }

  const TWO_64: int := 0x1_0000_0000_0000_0000

  /** Two's-complement wrap-around of an i64 result (release-build `*`). */
  function WrapI64(x: int): (r: int)
    ensures InI64(r)
    ensures (r - x) % TWO_64 == 0
    ensures InI64(x) ==> r == x
  {
    (x - I64_MIN) % TWO_64 + I64_MIN
  }

  /** The line-item units of a checkout: `quantity.saturating_mul(days.max(1))`. */
  function TotalUnits(quantity: int, days: int): (u: int)
    ensures InI64(u)
    ensures days >= 1 && InI64(quantity * days) ==> u == quantity * days
    ensures days < 1 && InI64(quantity) ==> u == quantity
    ensures quantity * (if days > 1 then days else 1) > I64_MAX ==> u == I64_MAX
    ensures quantity * (if days > 1 then days else 1) < I64_MIN ==> u == I64_MIN
  {
    SatMulI64(quantity, if days > 1 then days else 1)
  }

  /** `total_units.try_into::<u64>().unwrap_or(0)`: a negative count becomes 0. */
  function LineQuantity(units: int): (q: int)
    ensures q >= 0
    ensures units >= 0 ==> q == units
    ensures units < 0 ==> q == 0
  {
    if units < 0 then 0 else units
  }

  /** `(post.price as i64) * 100`: the listing's daily price in cents. */
  function PriceCentsPerDay(price: int): (c: int)
    ensures InI64(c)
    ensures InI64(price * 100) ==> c == price * 100
  {
    WrapI64(price * 100)
  }

  // ---------------------------------------------------------------------
  // The checkout request handed to the payment gateway
  // ---------------------------------------------------------------------

  /** The fields of `CreateCheckoutSession` the handler fills in. */
  datatype CheckoutRequest = CheckoutRequest(
    productName: string,
    unitAmount: int,
    lineQuantity: int,
    customer: Option<string>,
    customerEmail: Option<string>,
    metadata: map<string, string>,
    successUrl: string,
    cancelUrl: string)

  const ORDER_ID_KEY: string := "order_id"

  /**
   * `submit_stripe_checkout_session` up to the gateway call. The buyer is
   * identified by the stored customer id when there is one and it is a
   * well-formed id (`customerIdParses`), and by the email otherwise; the
   * order id always travels in the metadata.
   */
  function BuildCheckout(
    title: string, quantity: int, days: int, priceCentsPerDay: int,
    customerEmail: string, customerId: Option<string>, orderId: int,
    successUrl: string, cancelUrl: string, customerIdParses: string -> bool): (r: CheckoutRequest)
    ensures r.customer.Some? != r.customerEmail.Some?
    ensures r.customer.Some? <==> customerId.Some? && customerIdParses(customerId.value)
    ensures r.customer.Some? ==> r.customer == customerId
    ensures r.customerEmail.Some? ==> r.customerEmail == Some(customerEmail)
    ensures r.metadata.Keys == {ORDER_ID_KEY}
    ensures r.metadata[ORDER_ID_KEY] == IntToString(orderId)
    ensures r.lineQuantity == LineQuantity(TotalUnits(quantity, days))
    ensures r.unitAmount == priceCentsPerDay && r.productName == title
    ensures r.successUrl == successUrl && r.cancelUrl == cancelUrl
  {
    var useCustomer := customerId.Some? && customerIdParses(customerId.value);
    CheckoutRequest(
      title, priceCentsPerDay, LineQuantity(TotalUnits(quantity, days)),
      if useCustomer then customerId else None,
      if useCustomer then None else Some(customerEmail),
      map[ORDER_ID_KEY := IntToString(orderId)],
      successUrl, cancelUrl)
  }

  /**
   * The metadata round trip the webhook depends on: the `order_id` the
   * checkout carries parses back to the order's own id.
   */
  lemma CheckoutCarriesOrderId(
    title: string, quantity: int, days: int, priceCentsPerDay: int,
    customerEmail: string, customerId: Option<string>, orderId: int,
    successUrl: string, cancelUrl: string, customerIdParses: string -> bool)
    requires InI64(orderId)
    ensures ParseI64(BuildCheckout(title, quantity, days, priceCentsPerDay, customerEmail,
      customerId, orderId, successUrl, cancelUrl, customerIdParses).metadata[ORDER_ID_KEY]) == Some(orderId)
  {
    ParseFormatRoundTrip(orderId);
  }

  /** What the gateway answered: a session, no session, or an error. */
  datatype CheckoutReply = Session(id: string, url: string) | NoSession | GatewayError

  /** `SELECT stripe_customer_id FROM users WHERE id=?` with a missing row read as NULL. */
  function CustomerIdOf(users: map<int, User>, uid: int): (c: Option<string>)
    ensures uid !in users ==> c.None?
    ensures uid in users ==> c == users[uid].stripeCustomerId
  {
    if uid in users then users[uid].stripeCustomerId else None
  }

  /** The decimal form of a path id inside a URL. */
  function OrderPath(orderId: int): (p: string)
    ensures |p| > 8 && p[..8] == "/orders/"
    ensures InI64(orderId) ==> ParseI64(p[8..]) == Some(orderId)
  {
    var digits := IntToString(orderId);
    assert InI64(orderId) ==> ParseI64(digits) == Some(orderId) by {
      if InI64(orderId) {
        ParseFormatRoundTrip(orderId);
      }
    }
    assert ("/orders/" + digits)[8..] == digits;
    "/orders/" + digits
  }

  // ---------------------------------------------------------------------
  // The handlers that change the Orders table
  // ---------------------------------------------------------------------

  /**
   * `POST /posts/{id}/rent`. An accepted request inserts one order, in review,
   * for the signed-in renter with the form's quantity and date strings, under
   * the next AUTOINCREMENT id, and redirects to its confirmation page. Any
   * rejection leaves the database as it was.
   */
  method RentRequest(db: Database, postId: int, session: Option<int>, form: RentForm, parse: DateParser)
    returns (resp: Response)
    requires db.Valid()
    requires InI64(form.quantity)
    modifies db
    ensures db.Valid()
    ensures db.users == old(db.users) && db.posts == old(db.posts)
    ensures !LoggedIn(old(db.users), session) ==>
      resp == Redirect("/login?next=/posts/" + IntToString(postId) + "/rent") && unchanged(db)
    ensures LoggedIn(old(db.users), session) ==>
      match CheckRent(form, PostOf(old(db.posts), postId), parse)
      case BadRequest => resp == Page(400, RentFailure) && unchanged(db)
      case PostNotFound => resp == Page(404, NotFoundPage) && unchanged(db)
      case Accepted =>
        var id := old(db.nextOrderId);
        var renter := old(db.users)[session.value];
        && id !in old(db.orders)
        && db.orders == old(db.orders)[id := NewOrder(postId, session.value, renter.name, renter.email,
                          form.quantity, form.startDate, form.endDate).(status := PendingReview)]
        && db.nextOrderId == id + 1 && db.nextUserId == old(db.nextUserId)
        && resp == Redirect(OrderPath(id) + "/confirm")
  {
    if !LoggedIn(db.users, session) {
      return Redirect("/login?next=/posts/" + IntToString(postId) + "/rent");
    }
    var uid := session.value;
    var renter := db.users[uid];
    var verdict := CheckRent(form, PostOf(db.posts, postId), parse);
    if verdict == BadRequest {
      return Page(400, RentFailure);
    } else if verdict == PostNotFound {
      return Page(404, NotFoundPage);
    }
    var order := NewOrder(postId, uid, renter.name, renter.email, form.quantity, form.startDate, form.endDate);
    var id := db.InsertOrder(order.(status := PendingReview));
    resp := Redirect(OrderPath(id) + "/confirm");
  }

  /**
   * `POST /orders/{id}/confirm`. On an order the signed-in user owns whose
   * listing exists, the order always ends `submitted`, whatever its status
   * was. When the gateway is configured it is sent the checkout request
   * (`sent`); if a session comes back, its id and URL are stored and the
   * renter is redirected to the URL, otherwise the session fields stay as
   * they were and the pending page is shown. A missing login, order or
   * listing, or a foreign order, changes nothing.
   */
  method ConfirmSubmit(
    db: Database, orderId: int, session: Option<int>, parse: DateParser, today: int,
    baseUrl: string, configured: bool, reply: CheckoutReply, customerIdParses: string -> bool)
    returns (resp: Response, sent: Option<CheckoutRequest>)
    requires db.Valid()
    modifies db
    ensures db.Valid()
    ensures db.users == old(db.users) && db.posts == old(db.posts)
    ensures db.nextOrderId == old(db.nextOrderId) && db.nextUserId == old(db.nextUserId)
    ensures !LoggedIn(old(db.users), session) ==>
      resp == Redirect("/login?next=/orders") && sent.None? && unchanged(db)
    ensures LoggedIn(old(db.users), session) && orderId !in old(db.orders) ==>
      resp == Page(404, NotFoundPage) && sent.None? && unchanged(db)
    ensures LoggedIn(old(db.users), session) && ForeignOrder(old(db.orders), orderId, session.value) ==>
      resp == Page(403, NotFoundPage) && sent.None? && unchanged(db)
    ensures (LoggedIn(old(db.users), session) && OwnedBy(old(db.orders), orderId, session.value)
             && !HasListing(old(db.orders), old(db.posts), orderId)) ==>
      resp == Page(404, NotFoundPage) && sent.None? && unchanged(db)
    ensures (LoggedIn(old(db.users), session) && OwnedBy(old(db.orders), orderId, session.value)
             && HasListing(old(db.orders), old(db.posts), orderId)) ==>
      var o := old(db.orders)[orderId];
      var post := old(db.posts)[o.postId];
      && sent == (if configured then
                    Some(BuildCheckout(post.title, o.quantity, ConfirmDays(o, parse, today),
                      PriceCentsPerDay(post.price), o.renterEmail, CustomerIdOf(old(db.users), o.renterUserId),
                      orderId, baseUrl + "/orders", baseUrl + OrderPath(orderId) + "/confirm", customerIdParses))
                  else None)
      && (configured && reply.Session? ==>
            && db.orders == old(db.orders)[orderId := o.(status := Submitted,
                 stripeSessionId := Some(reply.id), stripeCheckoutUrl := Some(reply.url))]
            && resp == Redirect(reply.url))
      && (!(configured && reply.Session?) ==>
            && db.orders == SetStatus(old(db.orders), orderId, Submitted)
            && resp == Page(200, RentReceivedPending))
  {
    sent := None;
    if !LoggedIn(db.users, session) {
      return Redirect("/login?next=/orders"), sent;
    }
    if orderId !in db.orders {
      return Page(404, NotFoundPage), sent;
    }
    var order := db.orders[orderId];
    if order.renterUserId != session.value {
      return Page(403, NotFoundPage), sent;
    }
    if order.postId !in db.posts {
      return Page(404, NotFoundPage), sent;
    }
    var post := db.posts[order.postId];
    var successUrl := baseUrl + "/orders";
    var cancelUrl := baseUrl + OrderPath(orderId) + "/confirm";
    var days := ConfirmDays(order, parse, today);
    var submitted := false;
    var sessionId: Option<string> := None;
    var checkoutUrl: Option<string> := None;
    if configured {
      var request := BuildCheckout(post.title, order.quantity, days, PriceCentsPerDay(post.price),
        order.renterEmail, CustomerIdOf(db.users, order.renterUserId), orderId,
        successUrl, cancelUrl, customerIdParses);
      sent := Some(request);
      match reply
      case Session(sid, url) =>
        submitted := true;
        sessionId := Some(sid);
        checkoutUrl := Some(url);
      case NoSession =>
        submitted := false;
      case GatewayError =>
        submitted := false;
    }
    if submitted {
      db.orders := db.orders[orderId := order.(status := Submitted,
        stripeSessionId := sessionId, stripeCheckoutUrl := checkoutUrl)];
      if checkoutUrl.Some? {
        return Redirect(checkoutUrl.value), sent;
      }
    }
    db.orders := SetStatus(db.orders, orderId, Submitted);
    resp := Page(200, RentReceivedPending);
  }

  /**
   * `POST /orders/{id}/cancel`. The owner of an existing order may cancel it
   * from any status, `paid` included; only the status changes. Anyone else,
   * or a missing order, gets 403 and nothing changes.
   */
  method CancelOrder(db: Database, orderId: int, session: Option<int>) returns (resp: Response)
    requires db.Valid()
    modifies db
    ensures db.Valid()
    ensures db.users == old(db.users) && db.posts == old(db.posts)
    ensures db.nextOrderId == old(db.nextOrderId) && db.nextUserId == old(db.nextUserId)
    ensures !LoggedIn(old(db.users), session) ==>
      resp == Redirect("/login?next=/orders") && unchanged(db)
    ensures LoggedIn(old(db.users), session) && !OwnedBy(old(db.orders), orderId, session.value) ==>
      resp == Page(403, NotFoundPage) && unchanged(db)
    ensures LoggedIn(old(db.users), session) && OwnedBy(old(db.orders), orderId, session.value) ==>
      && db.orders == SetStatus(old(db.orders), orderId, Cancelled)
      && db.orders[orderId].status == Cancelled
      && resp == Redirect("/orders")
  {
    if !LoggedIn(db.users, session) {
      return Redirect("/login?next=/orders");
    }
    if !OwnedBy(db.orders, orderId, session.value) {
      return Page(403, NotFoundPage);
    }
    db.orders := SetStatus(db.orders, orderId, Cancelled);
    resp := Redirect("/orders");
  }

  /** The order exists and its listing is still in the Posts table. */
  predicate HasListing(orders: map<int, Order>, posts: map<int, Post>, orderId: int) {
    orderId in orders && orders[orderId].postId in posts
  }

  /** The order exists and belongs to someone else. */
  predicate ForeignOrder(orders: map<int, Order>, orderId: int, uid: int) {
    orderId in orders && orders[orderId].renterUserId != uid
  }

  /** `SELECT renter_user_id ... WHERE id=?` returned exactly this user. */
  predicate OwnedBy(orders: map<int, Order>, orderId: int, uid: int) {
    orderId in orders && orders[orderId].renterUserId == uid
  }

  // ---------------------------------------------------------------------
  // The handlers that only read
  // ---------------------------------------------------------------------

  /** `renter_user_id=?1 OR renter_email=?2`: an order is listed by account or by email. */
  function VisibleTo(o: Order, uid: int, email: string): (b: bool)
    ensures o.renterUserId == uid ==> b
    ensures !b ==> o.renterEmail != email
    ensures b ==> o.renterUserId == uid || o.renterEmail == email
  {
    o.renterUserId == uid || o.renterEmail == email
  }

  const ORDERS_PAGE_LIMIT: int := 100

  /**
   * The ids `GET /orders` lists: the visible orders, newest first, at most
   * 100 of them. A visible order is left out only when the page is full and
   * every listed order is newer.
   */
  function ListedOrders(orders: map<int, Order>, nextId: int, uid: int, email: string): (r: seq<int>)
    requires forall id :: id in orders ==> 1 <= id < nextId
    ensures |r| <= ORDERS_PAGE_LIMIT
    ensures forall k :: 0 <= k < |r| ==> r[k] in orders && VisibleTo(orders[r[k]], uid, email)
    ensures forall i, j :: 0 <= i < j < |r| ==> r[i] > r[j]
    ensures forall id :: id in orders && VisibleTo(orders[id], uid, email) && id !in r ==>
      |r| == ORDERS_PAGE_LIMIT && id < r[|r| - 1]
  {
    PageDesc(1, nextId, k => k in orders && VisibleTo(orders[k], uid, email), ORDERS_PAGE_LIMIT)
  }

  /** `GET /orders`: the signed-in user's list, or a redirect to the login page. */
  function MyOrders(db: Database, session: Option<int>): (resp: Response)
    reads db
    requires db.Valid()
    ensures !LoggedIn(db.users, session) ==> resp == Redirect("/login")
    ensures LoggedIn(db.users, session) ==>
      resp.Page? && resp.code == 200 && resp.view.OrdersList?
      && resp.view.ids == ListedOrders(db.orders, db.nextOrderId, session.value, db.users[session.value].email)
  {
    if LoggedIn(db.users, session) then
      Page(200, OrdersList(ListedOrders(db.orders, db.nextOrderId, session.value, db.users[session.value].email)))
    else Redirect("/login")
  }

  /** The title a page shows for a listing that may be gone: `""` when it is. */
  function TitleOf(posts: map<int, Post>, postId: int): (t: string)
    ensures postId in posts ==> t == posts[postId].title
    ensures postId !in posts ==> t == ""
  {
    if postId in posts then posts[postId].title else ""
  }

  /**
   * `GET /orders/{id}/confirm`: the owner sees the title, the quantity and the
   * total units `quantity * days` (wrapping as an i64); anyone else is
   * refused and a missing order is 404.
   */
  function ConfirmPage(db: Database, orderId: int, session: Option<int>, parse: DateParser): (resp: Response)
    reads db
    ensures !LoggedIn(db.users, session) ==> resp == Redirect("/login?next=/orders")
    ensures LoggedIn(db.users, session) && orderId !in db.orders ==> resp == Page(404, NotFoundPage)
    ensures LoggedIn(db.users, session) && ForeignOrder(db.orders, orderId, session.value) ==>
      resp == Page(403, NotFoundPage)
    ensures LoggedIn(db.users, session) && OwnedBy(db.orders, orderId, session.value) ==>
      var o := db.orders[orderId];
      && resp.Page? && resp.code == 200 && resp.view.ConfirmView?
      && resp.view.title == TitleOf(db.posts, o.postId)
      && resp.view.quantity == o.quantity
      && InI64(resp.view.totalUnits)
      && (InI64(o.quantity * ConfirmPageDays(o, parse)) ==>
            resp.view.totalUnits == o.quantity * ConfirmPageDays(o, parse))
  {
    if !LoggedIn(db.users, session) then Redirect("/login?next=/orders")
    else if orderId !in db.orders then Page(404, NotFoundPage)
    else
      var o := db.orders[orderId];
      if o.renterUserId != session.value then Page(403, NotFoundPage)
      else Page(200, ConfirmView(TitleOf(db.posts, o.postId), o.quantity,
                                 WrapI64(o.quantity * ConfirmPageDays(o, parse))))
  }

  /**
   * Away from i64 overflow and with a start date that parses, the units the
   * confirmation page shows are the units the checkout bills.
   */
  lemma PageUnitsMatchCheckout(o: Order, parse: DateParser, today: int)
    requires parse(o.startDate).Some?
    requires InI64(o.quantity * ConfirmPageDays(o, parse))
    ensures WrapI64(o.quantity * ConfirmPageDays(o, parse)) == TotalUnits(o.quantity, ConfirmDays(o, parse, today))
  {
    DaysAgree(o, parse, today);
  }

  /** `GET /orders/{id}`: the owner's order with its listing title. */
  function OrderDetail(db: Database, orderId: int, session: Option<int>): (resp: Response)
    reads db
    ensures !LoggedIn(db.users, session) ==> resp == Redirect("/login")
    ensures LoggedIn(db.users, session) && orderId !in db.orders ==> resp == Page(404, NotFoundPage)
    ensures LoggedIn(db.users, session) && ForeignOrder(db.orders, orderId, session.value) ==>
      resp == Page(403, NotFoundPage)
    ensures LoggedIn(db.users, session) && OwnedBy(db.orders, orderId, session.value) ==>
      resp == Page(200, OrderDetailView(TitleOf(db.posts, db.orders[orderId].postId), orderId))
  {
    if !LoggedIn(db.users, session) then Redirect("/login")
    else if orderId !in db.orders then Page(404, NotFoundPage)
    else if db.orders[orderId].renterUserId != session.value then Page(403, NotFoundPage)
    else Page(200, OrderDetailView(TitleOf(db.posts, db.orders[orderId].postId), orderId))
  }
}
