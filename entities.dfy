/**
 * The rows of the three tables the core reads and writes: Orders and users,
 * which it updates, and Posts (the listings), which it only reads.
 */
module Entities {
  import opened Wrappers

  /**
   * The `status` column of an order. The column is free text; these are the
   * values the handlers write.
   */
  datatype Status = Pending | PendingReview | Submitted | Paid | Cancelled

  /** One row of the Orders table (the id is the key of the table, not a field). */
  datatype Order = Order(
    postId: int,
    renterUserId: int,
    renterName: string,
    renterEmail: string,
    quantity: int,
    startDate: string,
    endDate: string,
    status: Status,
    shopifyOrderId: Option<string>,
    stripeSessionId: Option<string>,
    stripeCheckoutUrl: Option<string>)

  /**
   * `Order::new`: a fresh order is pending, has no external order and no
   * checkout session, and carries exactly the given renter, listing, quantity
   * and date strings.
   */
  function NewOrder(
    postId: int, renterUserId: int, renterName: string, renterEmail: string,
    quantity: int, startDate: string, endDate: string): (o: Order)
    ensures o.status == Pending
    ensures o.shopifyOrderId.None? && o.stripeSessionId.None? && o.stripeCheckoutUrl.None?
    ensures o.postId == postId && o.renterUserId == renterUserId
    ensures o.renterName == renterName && o.renterEmail == renterEmail
    ensures o.quantity == quantity && o.startDate == startDate && o.endDate == endDate
  {
    Order(postId, renterUserId, renterName, renterEmail, quantity, startDate, endDate,
          Pending, None, None, None)
  }

  /** The part of a listing (a row of Posts) the order handlers read. */
  datatype Post = Post(title: string, price: int, availableDate: string, endDate: string)

  /** One row of the users table. */
  datatype User = User(
    name: string,
    email: string,
    pwHash: string,
    stripeCustomerId: Option<string>,
    connectAccountId: Option<string>,
    connectVerified: bool)

  /**
   * `User::new` followed by the insert: a new account has no payment
   * customer, no payout account and is not verified.
   */
  function NewUser(name: string, email: string, pwHash: string): (u: User)
    ensures u.name == name && u.email == email && u.pwHash == pwHash
    ensures u.stripeCustomerId.None? && u.connectAccountId.None? && !u.connectVerified
  {
    User(name, email, pwHash, None, None, false)
  }

  /** The UNIQUE constraint on `users.email`. */
  ghost predicate UniqueEmails(users: map<int, User>) {
    forall a, b :: a in users && b in users && a != b ==> users[a].email != users[b].email
  }

  /** The UNIQUE constraint on `users.stripe_customer_id` (NULLs never clash). */
  ghost predicate UniqueCustomerIds(users: map<int, User>) {
    forall a, b :: a in users && b in users && a != b && users[a].stripeCustomerId.Some? ==>
      users[a].stripeCustomerId != users[b].stripeCustomerId
  }

  /** The UNIQUE constraint on `users.stripe_connect_account_id` (NULLs never clash). */
  ghost predicate UniqueConnectIds(users: map<int, User>) {
    forall a, b :: a in users && b in users && a != b && users[a].connectAccountId.Some? ==>
      users[a].connectAccountId != users[b].connectAccountId
  }

  ghost predicate UsersConstraints(users: map<int, User>) {
    UniqueEmails(users) && UniqueCustomerIds(users) && UniqueConnectIds(users)
  }

  /** Inserting a user whose email is free, with no provider ids yet, keeps every UNIQUE column unique. */
  lemma InsertKeepsConstraints(users: map<int, User>, id: int, u: User)
    requires UsersConstraints(users)
    requires id !in users && !EmailTaken(users, u.email)
    requires u.stripeCustomerId.None? && u.connectAccountId.None?
    ensures UsersConstraints(users[id := u])
  {
    var r := users[id := u];
    forall a, b | a in r && b in r && a != b
      ensures r[a].email != r[b].email
    {
      if a == id {
        assert r[b] == users[b];
      } else if b == id {
        assert r[a] == users[a];
      }
    }
  }

  /** Changing a user's name and moving them to an email no other user holds keeps every UNIQUE column unique. */
  lemma RenameKeepsConstraints(users: map<int, User>, uid: int, name: string, email: string)
    requires UsersConstraints(users) && uid in users
    requires email == users[uid].email || !EmailTaken(users, email)
    ensures UsersConstraints(users[uid := users[uid].(name := name, email := email)])
  {
    var r := users[uid := users[uid].(name := name, email := email)];
    forall a, b | a in r && b in r && a != b
      ensures r[a].email != r[b].email
    {
      if a == uid {
        assert r[b] == users[b];
      } else if b == uid {
        assert r[a] == users[a];
      }
    }
  }

  /** `exists_by_email`: some user already holds exactly this email. */
  predicate EmailTaken(users: map<int, User>, email: string) {
    exists id :: id in users && users[id].email == email
  }

  /** Some user other than `uid` already holds this customer id. */
  predicate CustomerIdTakenByOther(users: map<int, User>, uid: int, cid: string) {
    exists id :: id in users && id != uid && users[id].stripeCustomerId == Some(cid)
  }

  /** Some user other than `uid` already holds this payout account id. */
  predicate ConnectIdTakenByOther(users: map<int, User>, uid: int, aid: string) {
    exists id :: id in users && id != uid && users[id].connectAccountId == Some(aid)
  }

  /**
   * `UPDATE Orders SET status=... WHERE id=...`: the row with that id, if
   * there is one, gets the new status; no other field and no other row moves.
   */
  function SetStatus(orders: map<int, Order>, id: int, s: Status): (r: map<int, Order>)
    ensures r.Keys == orders.Keys
    ensures id in orders ==> r[id] == orders[id].(status := s)
    ensures forall k :: k in orders && k != id ==> r[k] == orders[k]
  {
    if id in orders then orders[id := orders[id].(status := s)] else orders
  }

  /** Writing the same status twice is writing it once. */
  lemma SetStatusIdempotent(orders: map<int, Order>, id: int, s: Status)
    ensures SetStatus(SetStatus(orders, id, s), id, s) == SetStatus(orders, id, s)
  {
  }

  /**
   * No write is guarded by the current status: of two writes to one row the
   * later one wins, whatever the earlier one wrote.
   */
  lemma SetStatusLastWins(orders: map<int, Order>, id: int, s1: Status, s2: Status)
    ensures SetStatus(SetStatus(orders, id, s1), id, s2) == SetStatus(orders, id, s2)
  {
  }
}
