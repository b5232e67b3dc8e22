/**
 * The payment-provider side of the users plugin: linking an account to a
 * payment customer, creating the payout (connect) account and its
 * onboarding link, refreshing the payout-verified flag, and the webhook that
 * marks orders paid and payout accounts verified.
 *
 * Every call to the provider is an input: its outcome is a parameter, and
 * whether a provider client is configured (the feature is compiled in and a
 * key is set) is the flag `configured`.
 */
module Payments {
  import opened Wrappers
  import opened Text
  import opened Entities
  import opened Store

  /** A provider call that failed (the `Err` the plugin propagates). */
  datatype GatewayFailure = GatewayFailure

  // ---------------------------------------------------------------------
  // Row updates refused by the UNIQUE columns
  // ---------------------------------------------------------------------

  /**
   * `UPDATE users SET stripe_customer_id=? WHERE id=?` with its error
   * ignored: it takes effect only when the row exists and no other user
   * holds that id, and otherwise changes nothing.
   */
  function StoreCustomerId(users: map<int, User>, uid: int, cid: string): (r: map<int, User>)
    ensures r.Keys == users.Keys
    ensures forall k :: k in users && k != uid ==> r[k] == users[k]
    ensures uid in users && !CustomerIdTakenByOther(users, uid, cid) ==>
      r[uid] == users[uid].(stripeCustomerId := Some(cid))
    ensures CustomerIdTakenByOther(users, uid, cid) ==> r == users
    ensures UsersConstraints(users) ==> UsersConstraints(r)
  {
    if uid in users && !CustomerIdTakenByOther(users, uid, cid) then
      users[uid := users[uid].(stripeCustomerId := Some(cid))]
    else users
  }

  /** `UPDATE users SET stripe_connect_account_id=? WHERE id=?`, likewise. */
  function StoreConnectId(users: map<int, User>, uid: int, aid: string): (r: map<int, User>)
    ensures r.Keys == users.Keys
    ensures forall k :: k in users && k != uid ==> r[k] == users[k]
    ensures uid in users && !ConnectIdTakenByOther(users, uid, aid) ==>
      r[uid] == users[uid].(connectAccountId := Some(aid))
    ensures ConnectIdTakenByOther(users, uid, aid) ==> r == users
    ensures UsersConstraints(users) ==> UsersConstraints(r)
  {
    if uid in users && !ConnectIdTakenByOther(users, uid, aid) then
      users[uid := users[uid].(connectAccountId := Some(aid))]
    else users
  }

  /** The stored column of a row, with a missing row read as NULL. */
  function StoredCustomerId(users: map<int, User>, uid: int): (c: Option<string>)
    ensures c.Some? ==> uid in users && c == users[uid].stripeCustomerId
  {
    if uid in users then users[uid].stripeCustomerId else None
  }

  function StoredConnectId(users: map<int, User>, uid: int): (a: Option<string>)
    ensures a.Some? ==> uid in users && a == users[uid].connectAccountId
  {
    if uid in users then users[uid].connectAccountId else None
  }

  // ---------------------------------------------------------------------
  // Payment customer
  // ---------------------------------------------------------------------

  /** What creating a customer answered: an error, no id, or a new id. */
  datatype CreateOutcome = CreateFailed | CreatedNone | Created(id: string)

  /** The provider as `ensure_customer_for_user` sees it. */
  datatype CustomerGateway = CustomerGateway(
    configured: bool,
    create: CreateOutcome,
    /** The id found by searching customers by email, when the search answers one. */
    foundByEmail: Option<string>)

  datatype CustomerStep = CustomerStep(result: Result<Option<string>, GatewayFailure>, users: map<int, User>)

  /**
   * `ensure_customer_for_user`. A stored customer id, even an empty one, is
   * returned as it is and nothing else happens. Otherwise, with a provider, a
   * customer is created (or, when creation gives no id, found by email) and
   * its id is stored and returned; a failed creation is an error.
   */
  function EnsureCustomerSpec(users: map<int, User>, uid: int, gw: CustomerGateway): (s: CustomerStep)
    ensures s.users.Keys == users.Keys
    ensures forall k :: k in users && k != uid ==> s.users[k] == users[k]
    ensures UsersConstraints(users) ==> UsersConstraints(s.users)
    ensures StoredCustomerId(users, uid).Some? ==> s == CustomerStep(Ok(StoredCustomerId(users, uid)), users)
    ensures !gw.configured && StoredCustomerId(users, uid).None? ==> s == CustomerStep(Ok(None), users)
    ensures s.result.Err? ==> s.users == users && gw.create == CreateFailed
    ensures StoredCustomerId(users, uid).None? && gw.configured ==>
      && (s.result.Err? <==> gw.create == CreateFailed)
      && (gw.create.Created? ==> s.result == Ok(Some(gw.create.id)))
      && (gw.create == CreatedNone ==> s.result == Ok(gw.foundByEmail))
    ensures s.users != users ==>
      && uid in users && users[uid].stripeCustomerId.None?
      && s.result.Ok? && s.result.value.Some?
      && s.users[uid] == users[uid].(stripeCustomerId := s.result.value)
  {
    var stored := StoredCustomerId(users, uid);
    if stored.Some? then CustomerStep(Ok(stored), users)
    else if !gw.configured then CustomerStep(Ok(None), users)
    else match gw.create
      case CreateFailed => CustomerStep(Err(GatewayFailure), users)
      case Created(cid) => CustomerStep(Ok(Some(cid)), StoreCustomerId(users, uid, cid))
      case CreatedNone =>
        match gw.foundByEmail
        case Some(found) => CustomerStep(Ok(Some(found)), StoreCustomerId(users, uid, found))
        case None => CustomerStep(Ok(None), users)
  }

  /**
   * Once an id has been returned and stored, every later call returns that
   * same id and changes nothing, whatever the provider would answer.
   */
  lemma EnsureCustomerSettles(users: map<int, User>, uid: int, gw: CustomerGateway, later: CustomerGateway)
    requires uid in users
    requires EnsureCustomerSpec(users, uid, gw).result.Ok?
    requires EnsureCustomerSpec(users, uid, gw).result.value.Some?
    requires !CustomerIdTakenByOther(users, uid, EnsureCustomerSpec(users, uid, gw).result.value.value)
    ensures var s := EnsureCustomerSpec(users, uid, gw);
      EnsureCustomerSpec(s.users, uid, later) == CustomerStep(s.result, s.users)
  {
    var s := EnsureCustomerSpec(users, uid, gw);
    if users[uid].stripeCustomerId.None? {
      var cid := s.result.value.value;
      assert s.users == StoreCustomerId(users, uid, cid);
      assert StoredCustomerId(s.users, uid) == Some(cid);
    }
  }

  /** An id returned for a user with none on record is stored, unless another user already holds it. */
  lemma EnsureCustomerStoresNew(users: map<int, User>, uid: int, gw: CustomerGateway, id: string)
    requires uid in users && users[uid].stripeCustomerId.None?
    requires EnsureCustomerSpec(users, uid, gw).result == Ok(Some(id))
    requires !CustomerIdTakenByOther(users, uid, id)
    ensures StoredCustomerId(EnsureCustomerSpec(users, uid, gw).users, uid) == Some(id)
  {
    assert EnsureCustomerSpec(users, uid, gw).users == StoreCustomerId(users, uid, id);
  }

  /** A customer creation whose id another user already holds is returned but not stored. */
  lemma ClashingCustomerIdNotStored(users: map<int, User>, uid: int, gw: CustomerGateway)
    requires uid in users && users[uid].stripeCustomerId.None? && gw.configured
    requires gw.create.Created? && CustomerIdTakenByOther(users, uid, gw.create.id)
    ensures EnsureCustomerSpec(users, uid, gw) == CustomerStep(Ok(Some(gw.create.id)), users)
  {
  }

  /**
   * `ensure_customer_for_user` with an empty stored id read as no id, which
   * is how the backfill's query reads it: such a user gets a customer
   * created or found like a user with none.
   */
  function EnsureCustomerCorrected(users: map<int, User>, uid: int, gw: CustomerGateway): (s: CustomerStep)
    ensures StoredCustomerId(users, uid) != Some("") ==> s == EnsureCustomerSpec(users, uid, gw)
    ensures s.users.Keys == users.Keys
    ensures forall k :: k in users && k != uid ==> s.users[k] == users[k]
  {
    var stored := StoredCustomerId(users, uid);
    if stored.Some? && stored != Some("") then CustomerStep(Ok(stored), users)
    else if !gw.configured then CustomerStep(Ok(None), users)
    else match gw.create
      case CreateFailed => CustomerStep(Err(GatewayFailure), users)
      case Created(cid) => CustomerStep(Ok(Some(cid)), StoreCustomerId(users, uid, cid))
      case CreatedNone =>
        match gw.foundByEmail
        case Some(found) => CustomerStep(Ok(Some(found)), StoreCustomerId(users, uid, found))
        case None => CustomerStep(Ok(None), users)
  }

  /** The call as the handlers make it: the users table takes the new state. */
  method EnsureCustomer(db: Database, uid: int, gw: CustomerGateway) returns (r: Result<Option<string>, GatewayFailure>)
    requires db.Valid()
    modifies db
    ensures db.Valid()
    ensures db.orders == old(db.orders) && db.posts == old(db.posts)
    ensures db.nextOrderId == old(db.nextOrderId) && db.nextUserId == old(db.nextUserId)
    ensures r == EnsureCustomerSpec(old(db.users), uid, gw).result
    ensures db.users == EnsureCustomerSpec(old(db.users), uid, gw).users
  {
    if uid in db.users && db.users[uid].stripeCustomerId.Some? {
      return Ok(db.users[uid].stripeCustomerId);
    }
    if !gw.configured {
      return Ok(None);
    }
    match gw.create {
      case CreateFailed =>
        r := Err(GatewayFailure);
      case Created(cid) =>
        db.users := StoreCustomerId(db.users, uid, cid);
        r := Ok(Some(cid));
      case CreatedNone =>
        if gw.foundByEmail.Some? {
          db.users := StoreCustomerId(db.users, uid, gw.foundByEmail.value);
          r := Ok(gw.foundByEmail);
        } else {
          r := Ok(None);
        }
    }
  }

  // ---------------------------------------------------------------------
  // Payout (connect) account and onboarding link
  // ---------------------------------------------------------------------

  /** The provider as `create_or_get_connect_account_and_link` sees it. */
  datatype ConnectGateway = ConnectGateway(
    configured: bool,
    /** The id of a newly created account, or `None` when creation fails. */
    createdAccount: Option<string>,
    /** `AccountId::from_str` accepts the id. */
    accountIdParses: string -> bool,
    /** The onboarding link's URL, or `None` when creating it fails. */
    linkUrl: Option<string>)

  /** The payout account the link is asked for: the stored one, else the newly created one. */
  function ConnectAccountOf(users: map<int, User>, uid: int, gw: ConnectGateway): (a: Option<string>)
    ensures a.Some? <==> StoredConnectId(users, uid).Some? || gw.createdAccount.Some?
    ensures StoredConnectId(users, uid).Some? ==> a == StoredConnectId(users, uid)
  {
    if StoredConnectId(users, uid).Some? then StoredConnectId(users, uid) else gw.createdAccount
  }

  datatype ConnectStep = ConnectStep(result: Result<Option<string>, GatewayFailure>, users: map<int, User>)

  /**
   * `create_or_get_connect_account_and_link`: reuse the stored payout account
   * or create and store one, then ask for its onboarding link. The new id is
   * stored before it is checked, so it stays stored even when the link step
   * fails.
   */
  function ConnectLinkSpec(users: map<int, User>, uid: int, gw: ConnectGateway): (s: ConnectStep)
    ensures s.users.Keys == users.Keys
    ensures forall k :: k in users && k != uid ==> s.users[k] == users[k]
    ensures UsersConstraints(users) ==> UsersConstraints(s.users)
    ensures !gw.configured ==> s == ConnectStep(Ok(None), users)
    ensures StoredConnectId(users, uid).Some? ==> s.users == users
    ensures s.users != users ==>
      && uid in users && users[uid].connectAccountId.None? && gw.createdAccount.Some?
      && s.users[uid] == users[uid].(connectAccountId := gw.createdAccount)
    ensures s.result.Ok? && s.result.value.Some? ==> gw.linkUrl == s.result.value
    ensures gw.configured ==>
      var acct := ConnectAccountOf(users, uid, gw);
      if acct.Some? && gw.accountIdParses(acct.value) && gw.linkUrl.Some?
      then s.result == Ok(gw.linkUrl) else s.result.Err?
  {
    if !gw.configured then ConnectStep(Ok(None), users)
    else
      var current := StoredConnectId(users, uid);
      if current.None? && gw.createdAccount.None? then ConnectStep(Err(GatewayFailure), users)
      else
        var acct := if current.Some? then current.value else gw.createdAccount.value;
        var stored := if current.Some? then users else StoreConnectId(users, uid, acct);
        if !gw.accountIdParses(acct) then ConnectStep(Err(GatewayFailure), stored)
        else match gw.linkUrl
          case Some(url) => ConnectStep(Ok(Some(url)), stored)
          case None => ConnectStep(Err(GatewayFailure), stored)
  }

  /** With an account on record, no account is created: what creation would answer does not matter. */
  lemma ConnectReusesStoredAccount(users: map<int, User>, uid: int, gw: ConnectGateway, other: Option<string>)
    requires StoredConnectId(users, uid).Some?
    ensures ConnectLinkSpec(users, uid, gw) == ConnectLinkSpec(users, uid, gw.(createdAccount := other))
  {
  }

  /**
   * An account created for a user with none is stored, and from then on it
   * is reused: a later call changes no row whatever creation would answer.
   */
  lemma ConnectCreatesOnce(users: map<int, User>, uid: int, gw: ConnectGateway, later: ConnectGateway)
    requires uid in users && users[uid].connectAccountId.None?
    requires gw.configured && gw.createdAccount.Some?
    requires !ConnectIdTakenByOther(users, uid, gw.createdAccount.value)
    ensures var s := ConnectLinkSpec(users, uid, gw);
      && StoredConnectId(s.users, uid) == gw.createdAccount
      && ConnectLinkSpec(s.users, uid, later).users == s.users
  {
    var s := ConnectLinkSpec(users, uid, gw);
    assert s.users == StoreConnectId(users, uid, gw.createdAccount.value);
  }

  method CreateOrGetConnectAccountAndLink(db: Database, uid: int, gw: ConnectGateway)
    returns (r: Result<Option<string>, GatewayFailure>)
    requires db.Valid()
    modifies db
    ensures db.Valid()
    ensures db.orders == old(db.orders) && db.posts == old(db.posts)
    ensures db.nextOrderId == old(db.nextOrderId) && db.nextUserId == old(db.nextUserId)
    ensures r == ConnectLinkSpec(old(db.users), uid, gw).result
    ensures db.users == ConnectLinkSpec(old(db.users), uid, gw).users
  {
    if !gw.configured {
      return Ok(None);
    }
    var current := StoredConnectId(db.users, uid);
    var acct: string;
    if current.Some? {
      acct := current.value;
    } else {
      if gw.createdAccount.None? {
        return Err(GatewayFailure);
      }
      acct := gw.createdAccount.value;
      db.users := StoreConnectId(db.users, uid, acct);
    }
    if !gw.accountIdParses(acct) {
      return Err(GatewayFailure);
    }
    if gw.linkUrl.None? {
      return Err(GatewayFailure);
    }
    r := Ok(gw.linkUrl);
  }

  // ---------------------------------------------------------------------
  // The payout-verified rule
  // ---------------------------------------------------------------------

  /**
   * What the provider reports about a payout account; `None` is a field that
   * is absent. `currentlyDue` is the length of `requirements.currently_due`.
   */
  datatype AccountFlags = AccountFlags(
    chargesEnabled: Option<bool>,
    payoutsEnabled: Option<bool>,
    currentlyDue: Option<nat>)

  /**
   * `verified = (charges && payouts) || due_empty`, shared by the refresh
   * path and the webhook: an absent flag is false, and an absent list of due
   * requirements does not count as empty.
   */
  function ConnectVerified(f: AccountFlags): (v: bool)
    ensures v <==> (f.chargesEnabled == Some(true) && f.payoutsEnabled == Some(true)) || f.currentlyDue == Some(0)
  {
    var charges := f.chargesEnabled.GetOr(false);
    var payouts := f.payoutsEnabled.GetOr(false);
    var dueEmpty := match f.currentlyDue case Some(n) => n == 0 case None => false;
    (charges && payouts) || dueEmpty
  }

  /** The provider as `refresh_connect_status` sees it. */
  datatype AccountLookup = AccountLookup(
    configured: bool,
    accountIdParses: string -> bool,
    /** The stored account's flags, or `None` when retrieving it fails. */
    retrieved: Option<AccountFlags>)

  /** Refresh reaches the provider only for a stored, well-formed account id that it can retrieve. */
  function RefreshApplies(users: map<int, User>, uid: int, look: AccountLookup): (b: bool)
    ensures b ==> uid in users && users[uid].connectAccountId.Some? && look.retrieved.Some?
    ensures !look.configured ==> !b
  {
    && look.configured
    && StoredConnectId(users, uid).Some?
    && look.accountIdParses(StoredConnectId(users, uid).value)
    && look.retrieved.Some?
  }

  /** `refresh_connect_status`: the user's flag becomes the rule applied to the retrieved account. */
  function RefreshSpec(users: map<int, User>, uid: int, look: AccountLookup): (r: map<int, User>)
    ensures r.Keys == users.Keys
    ensures forall k :: k in users && k != uid ==> r[k] == users[k]
    ensures UsersConstraints(users) ==> UsersConstraints(r)
    ensures RefreshApplies(users, uid, look) ==>
      r[uid] == users[uid].(connectVerified := ConnectVerified(look.retrieved.value))
    ensures !RefreshApplies(users, uid, look) ==> r == users
  {
    if RefreshApplies(users, uid, look) then
      users[uid := users[uid].(connectVerified := ConnectVerified(look.retrieved.value))]
    else users
  }

  method RefreshConnectStatus(db: Database, uid: int, look: AccountLookup)
    requires db.Valid()
    modifies db
    ensures db.Valid()
    ensures db.orders == old(db.orders) && db.posts == old(db.posts)
    ensures db.nextOrderId == old(db.nextOrderId) && db.nextUserId == old(db.nextUserId)
    ensures db.users == RefreshSpec(old(db.users), uid, look)
  {
    if !look.configured {
      return;
    }
    var aid := StoredConnectId(db.users, uid);
    if aid.Some? && look.accountIdParses(aid.value) && look.retrieved.Some? {
      db.users := db.users[uid := db.users[uid].(connectVerified := ConnectVerified(look.retrieved.value))];
    }
  }

  // ---------------------------------------------------------------------
  // The webhook
  // ---------------------------------------------------------------------

  /**
   * The part of a webhook body's JSON the handler reads, already parsed.
   * A body that is not JSON, or whose `type` is not a string, has the type
   * `""`; a missing `data.object` is `None`.
   */
  datatype Event = Event(eventType: string, dataObject: Option<EventObject>)

  datatype EventObject = EventObject(
    /** `data.object.id`, when it is a string. */
    id: Option<string>,
    /** `data.object.metadata.order_id`, when metadata is an object and that field a string. */
    metadataOrderId: Option<string>,
    flags: AccountFlags)

  const CHECKOUT_COMPLETED: string := "checkout.session.completed"
  const ACCOUNT_UPDATED: string := "account.updated"

  /** The order a completed checkout pays for: its metadata id, when that parses as an i64. */
  function PaidOrderId(e: Event): (r: Option<int>)
    ensures r.Some? ==> InI64(r.value)
    ensures r.Some? <==>
      && e.eventType == CHECKOUT_COMPLETED && e.dataObject.Some?
      && e.dataObject.value.metadataOrderId.Some?
      && ParseI64(e.dataObject.value.metadataOrderId.value).Some?
  {
    if e.eventType == CHECKOUT_COMPLETED && e.dataObject.Some? && e.dataObject.value.metadataOrderId.Some? then
      ParseI64(e.dataObject.value.metadataOrderId.value)
    else None
  }

  /** `UPDATE users SET stripe_connect_verified=? WHERE stripe_connect_account_id=?`. */
  function MarkVerified(users: map<int, User>, aid: string, verified: bool): (r: map<int, User>)
    ensures r.Keys == users.Keys
    ensures forall k :: k in users && users[k].connectAccountId == Some(aid) ==>
      r[k] == users[k].(connectVerified := verified)
    ensures forall k :: k in users && users[k].connectAccountId != Some(aid) ==> r[k] == users[k]
    ensures UsersConstraints(users) ==> UsersConstraints(r)
  {
    map k | k in users :: if users[k].connectAccountId == Some(aid) then users[k].(connectVerified := verified) else users[k]
  }

  /** The account an `account.updated` event names, and the flag it computes, when the id is non-empty. */
  function AccountUpdate(e: Event): (r: Option<(string, bool)>)
    ensures r.Some? ==>
      && r.value.0 != [] && e.eventType == ACCOUNT_UPDATED && e.dataObject.Some?
      && e.dataObject.value.id == Some(r.value.0) && r.value.1 == ConnectVerified(e.dataObject.value.flags)
    ensures (e.eventType == ACCOUNT_UPDATED && e.dataObject.Some? && e.dataObject.value.id.Some?
             && e.dataObject.value.id.value != []) ==> r.Some?
  {
    if e.eventType == ACCOUNT_UPDATED && e.dataObject.Some? then
      var aid := e.dataObject.value.id.GetOr("");
      if aid != [] then Some((aid, ConnectVerified(e.dataObject.value.flags))) else None
    else None
  }

  /** The Orders table after a verified event. */
  function WebhookOrders(orders: map<int, Order>, e: Event): (r: map<int, Order>)
    ensures PaidOrderId(e).None? ==> r == orders
    ensures PaidOrderId(e).Some? ==> r == SetStatus(orders, PaidOrderId(e).value, Paid)
  {
    match PaidOrderId(e)
    case Some(id) => SetStatus(orders, id, Paid)
    case None => orders
  }

  /** The users table after a verified event. */
  function WebhookUsers(users: map<int, User>, e: Event): (r: map<int, User>)
    ensures AccountUpdate(e).None? ==> r == users
    ensures UsersConstraints(users) ==> UsersConstraints(r)
  {
    match AccountUpdate(e)
    case Some((aid, verified)) => MarkVerified(users, aid, verified)
    case None => users
  }

  /**
   * A completed checkout carrying an order's id marks exactly that order
   * paid, whatever its status was (a cancelled order included), and leaves
   * every other order and every user as they were.
   */
  lemma CheckoutCompletedPaysOrder(orders: map<int, Order>, users: map<int, User>, e: Event, id: int)
    requires InI64(id) && id in orders
    requires e.eventType == CHECKOUT_COMPLETED && e.dataObject.Some?
    requires e.dataObject.value.metadataOrderId == Some(IntToString(id))
    ensures WebhookOrders(orders, e).Keys == orders.Keys
    ensures WebhookOrders(orders, e)[id] == orders[id].(status := Paid)
    ensures forall k :: k in orders && k != id ==> WebhookOrders(orders, e)[k] == orders[k]
    ensures WebhookUsers(users, e) == users
  {
    ParseFormatRoundTrip(id);
  }

  /** An `account.updated` event sets the flag on exactly the users holding that account. */
  lemma AccountUpdatedMarksHolders(users: map<int, User>, e: Event, aid: string)
    requires e.eventType == ACCOUNT_UPDATED && e.dataObject.Some? && e.dataObject.value.id == Some(aid) && aid != []
    ensures WebhookUsers(users, e).Keys == users.Keys
    ensures forall k :: k in users && users[k].connectAccountId == Some(aid) ==>
      WebhookUsers(users, e)[k] == users[k].(connectVerified := ConnectVerified(e.dataObject.value.flags))
    ensures forall k :: k in users && users[k].connectAccountId != Some(aid) ==> WebhookUsers(users, e)[k] == users[k]
    ensures WebhookOrders(map[], e) == map[]
  {
  }

  /** Delivering the same event twice leaves the state the first delivery left. */
  lemma WebhookReplay(orders: map<int, Order>, users: map<int, User>, e: Event)
    ensures WebhookOrders(WebhookOrders(orders, e), e) == WebhookOrders(orders, e)
    ensures WebhookUsers(WebhookUsers(users, e), e) == WebhookUsers(users, e)
  {
    if PaidOrderId(e).Some? {
      SetStatusIdempotent(orders, PaidOrderId(e).value, Paid);
    }
    match AccountUpdate(e)
    case Some((aid, verified)) =>
      var once := MarkVerified(users, aid, verified);
      assert MarkVerified(once, aid, verified) == once;
    case None =>
  }

  /**
   * The refresh path and the webhook agree: refreshing a user from the
   * provider and receiving an `account.updated` event with the same flags
   * for that user's account leave the same flag on the user.
   */
  lemma RefreshAgreesWithWebhook(users: map<int, User>, uid: int, look: AccountLookup)
    requires RefreshApplies(users, uid, look)
    requires StoredConnectId(users, uid).value != []
    ensures var e := Event(ACCOUNT_UPDATED,
        Some(EventObject(StoredConnectId(users, uid), None, look.retrieved.value)));
      RefreshSpec(users, uid, look)[uid] == WebhookUsers(users, e)[uid]
  {
    var aid := StoredConnectId(users, uid).value;
    var e := Event(ACCOUNT_UPDATED, Some(EventObject(Some(aid), None, look.retrieved.value)));
    assert AccountUpdate(e) == Some((aid, ConnectVerified(look.retrieved.value)));
  }

  /** How the webhook request arrived: the secret, the signature header, and whether the signature checks out. */
  datatype WebhookContext = WebhookContext(
    featureEnabled: bool,
    secret: string,
    signature: string,
    signatureValid: bool)

  /** Only a signed delivery, checked against a configured secret, is acted on. */
  function Authentic(ctx: WebhookContext): (b: bool)
    ensures b ==> ctx.featureEnabled && ctx.signatureValid
    ensures ctx.secret == [] || ctx.signature == [] ==> !b
  {
    ctx.featureEnabled && ctx.secret != [] && ctx.signature != [] && ctx.signatureValid
  }

  /**
   * `POST /webhooks/stripe`. An unsigned delivery, or one without a secret,
   * is acknowledged with 200 and ignored; a bad signature is 400 and
   * ignored; an authentic one is applied and acknowledged with 200.
   */
  method StripeWebhook(db: Database, ctx: WebhookContext, e: Event) returns (code: int)
    requires db.Valid()
    modifies db
    ensures db.Valid()
    ensures db.posts == old(db.posts)
    ensures db.nextOrderId == old(db.nextOrderId) && db.nextUserId == old(db.nextUserId)
    ensures code == 400 <==> ctx.featureEnabled && ctx.secret != [] && ctx.signature != [] && !ctx.signatureValid
    ensures code == 200 || code == 400
    ensures !Authentic(ctx) ==> unchanged(db)
    ensures Authentic(ctx) ==>
      db.orders == WebhookOrders(old(db.orders), e) && db.users == WebhookUsers(old(db.users), e)
  {
    if !ctx.featureEnabled {
      return 200;
    }
    if ctx.secret == [] || ctx.signature == [] {
      return 200;
    }
    if !ctx.signatureValid {
      return 400;
    }
    if e.eventType == CHECKOUT_COMPLETED && e.dataObject.Some? && e.dataObject.value.metadataOrderId.Some? {
      var parsed := ParseI64(e.dataObject.value.metadataOrderId.value);
      if parsed.Some? {
        db.orders := SetStatus(db.orders, parsed.value, Paid);
      }
    }
    if e.eventType == ACCOUNT_UPDATED && e.dataObject.Some? {
      var aid := e.dataObject.value.id.GetOr("");
      var verified := ConnectVerified(e.dataObject.value.flags);
      if aid != [] {
        db.users := MarkVerified(db.users, aid, verified);
      }
    }
    code := 200;
  }
}
