# Pallet Spaces: order lifecycle and payout verification, in Dafny

This project models the core of the Pallet Spaces rental backend, a Rust web
service built on axum, sqlx/SQLite and Stripe. The core has three parts.

- **The order lifecycle of the orders plugin** (`backend/src/plugins/orders.rs`).
  A signed-in renter asks to rent a listing for a date range, which inserts an
  order in `pending_review`. Confirming it builds a checkout request for the
  payment gateway and leaves the order `submitted`; the gateway session's id
  and URL are stored when a session comes back. Cancelling sets `cancelled`.
  The read-only pages are the order list, the confirmation page and the order
  detail.
- **The payments and accounts side of the users plugin** (`backend/src/plugins/users.rs`).
  It covers:
  - linking a user to a payment customer;
  - creating a payout (Connect) account and its onboarding link;
  - the payout-verified rule and its refresh;
  - the signed webhook, which marks orders `paid` and payout accounts verified;
  - signup, the live email check, login with its `next` redirect, and profile update;
  - the administrator's paginated backfill of payment customers.
- **The older signup controller's email-format check** (`backend/src/controller/signup.rs`).

The database is the class `Store.Database`. It holds the Orders, users and
Posts tables as maps keyed by row id, plus the next AUTOINCREMENT id of each
table. Its invariant `Valid()` holds:
- every key lies below the next id;
- the UNIQUE columns `users.email`, `users.stripe_customer_id` and
  `users.stripe_connect_account_id` hold no duplicates.

Each handler that writes is a method with `modifies db`. Its postcondition
gives the new tables as a function of the old ones, branch by branch, with
the status code or redirect it answers.

Calls to the payment provider, the password check, the signature check and
the date parser are inputs:
- a provider's answer is a datatype parameter (`CustomerGateway`, `ConnectGateway`, `AccountLookup`, `CheckoutReply`);
- dates are a partial parser `string -> Option<int>` to day numbers, and "today" is a parameter.

The code has no status guards, and the model keeps it that way:
- cancelling overwrites any status, `paid` included;
- a completed checkout marks a `cancelled` order `paid`;
- confirming re-submits an order from any status.

`Entities.SetStatusLastWins` and `Lifecycle.LastWriterDecidesStatus` state
this outright.

Modules:
- `Wrappers`: `Option` and `Result`.
- `Text`: Rust's `trim`, ASCII `to_lowercase`, `split`, `starts_with`, UTF-8 byte length, and i64 decimal parse and format.
- `Entities`: the rows, the UNIQUE constraints and the status write.
- `Http`: responses.
- `Store`: the database class.
- `Tables`: ordered `SELECT`s with `LIMIT`.
- `Orders`: orders.rs.
- `Payments`: the provider side of users.rs.
- `Accounts`: the account handlers of users.rs.
- `SignupController`: controller/signup.rs.
- `Lifecycle`: how checkout and webhook meet.

## Model

| member | source | states |
|---|---|---|
| Entities.NewOrder | backend/src/plugins/orders.rs:32-55 | a new order is `pending`, has no external order and no checkout session, and carries exactly the given listing, renter, quantity and dates |
| Entities.NewUser | backend/src/plugins/users.rs:41-52 | a new user has no customer id, no payout account and is not verified |
| Entities.SetStatus | backend/src/plugins/orders.rs:591-593 | a status UPDATE changes only that row's status; other fields and rows, and the key set, are kept |
| Entities.SetStatusIdempotent | backend/src/plugins/orders.rs:591-593 | writing the same status twice is writing it once |
| Entities.SetStatusLastWins | backend/src/plugins/users.rs:864-866 | no write checks the current status: of two writes to one row the later wins |
| Entities.InsertKeepsConstraints | backend/src/plugins/users.rs:152-166 | inserting a user with a free email and no provider ids keeps all three UNIQUE columns unique |
| Entities.RenameKeepsConstraints | backend/src/plugins/users.rs:775-779 | renaming a user to a free email (or their own) keeps the UNIQUE columns unique |
| Store.Database.InsertUser | backend/src/plugins/users.rs:152-166 | the row gets the next id, which was unused; no other table moves; the invariant is kept |
| Store.Database.InsertOrder | backend/src/plugins/orders.rs:477-490 | the row gets the next id, which was unused; no other table moves |
| Store.Database.Rename | backend/src/plugins/users.rs:775-779 | only that user's name and email change; the invariant is kept |
| Tables.SelectDesc | backend/src/plugins/orders.rs:604-609 | exactly the matching ids in the range, strictly descending |
| Tables.SelectAsc | backend/src/plugins/users.rs:802-810 | exactly the matching ids in the range, strictly ascending |
| Tables.Take | backend/src/plugins/orders.rs:605 | `LIMIT n`: the first `min(n, len)` entries, in order |
| Tables.PageDesc | backend/src/plugins/orders.rs:604-609 | `ORDER BY id DESC LIMIT n`: at most n matching ids, newest first; a match left out means the page is full and the match is older than all of it |
| Tables.PageAsc | backend/src/plugins/users.rs:802-810 | `ORDER BY id ASC LIMIT n`: at most n matching ids, ascending; a match left out means the page is full and the match lies beyond all of it |
| Text.Trim | backend/src/plugins/users.rs:485 | `str::trim`: never longer than the input, and no whitespace left at either end |
| Text.TrimShape | backend/src/plugins/orders.rs:455-456 | `trim` gives a contiguous slice with no whitespace at either end and only whitespace outside it, and is empty exactly when the input is all whitespace |
| Text.TrimIdempotent | backend/src/plugins/users.rs:485 | trimming twice is trimming once |
| Text.TrimKeeps | backend/src/plugins/users.rs:545-548 | trimming never adds or removes a non-whitespace character's presence |
| Text.Lower | backend/src/plugins/users.rs:484 | lower-casing keeps the length and maps each character on its own |
| Text.LowerKeeps | backend/src/plugins/users.rs:545-548 | lower-casing does not change whether a non-letter occurs |
| Text.NormaliseKeeps | backend/src/plugins/users.rs:545-548 | `trim().to_lowercase()` does not change whether `@` occurs |
| Text.Normalise | backend/src/plugins/users.rs:484 | `trim().to_lowercase()` leaves no ASCII upper-case letter |
| Text.NormaliseIdempotent | backend/src/plugins/users.rs:484 | normalising an email twice is normalising it once |
| Text.JoinSplit | backend/src/plugins/users.rs:549 | `split('@')` loses nothing: joining the pieces with the separator gives the input back |
| Text.Split | backend/src/plugins/users.rs:549 | `split('@')` gives at least one piece, and no piece holds the separator |
| Text.StartsWith | backend/src/plugins/users.rs:597 | `starts_with`: the string is the prefix followed by the rest of it |
| Text.SplitHasSecond | backend/src/controller/signup.rs:59-68 | there is a second `@`-piece exactly when the string holds an `@`, and it is what follows the first `@` |
| Text.Utf8Width | backend/src/plugins/users.rs:486 | one byte below U+0080, two below U+0800, three below U+10000, four above, each threshold in both directions |
| Text.Utf8Len | backend/src/plugins/users.rs:486 | `String::len` counts UTF-8 bytes: between 1 and 4 per character |
| Text.Utf8LenConcat | backend/src/plugins/users.rs:486 | the byte length of a concatenation is the sum of the parts' byte lengths |
| Text.ParseI64 | backend/src/plugins/users.rs:863 | `parse::<i64>` answers only values in the i64 range, only for text that starts with a sign or a digit |
| Text.IntToString | backend/src/plugins/orders.rs:204 | `to_string`: at least one character, a leading `-` exactly for a negative number, and decimal digits after it |
| Text.ParseFormatRoundTrip | backend/src/plugins/orders.rs:204 | every i64 formatted with `to_string` parses back to itself |
| Text.IntToStringInjective | backend/src/plugins/orders.rs:204 | two different order ids never format to the same metadata string |
| Orders.PostOf | backend/src/plugins/orders.rs:462-465 | the listing is found exactly when its id is in Posts |
| Orders.CheckRent | backend/src/plugins/orders.rs:454-472 | accepted iff `Rentable`: positive quantity, non-blank dates that parse, `start <= end`, and inside every listing bound that parses. 404 iff the form is fine but the listing is missing. A bad quantity or blank date, or an unparsable date, is 400. A listing bound that does not parse never restricts |
| Orders.BillableDays | backend/src/plugins/orders.rs:536 | at least one day, and exactly `end - start` when that is positive |
| Orders.ConfirmDays | backend/src/plugins/orders.rs:534-536 | the days billed at confirmation, with today as the start fallback and the start as the end fallback; always at least 1 |
| Orders.ConfirmPageDays | backend/src/plugins/orders.rs:679-682 | the days shown on the confirmation page: 1 unless both dates parse |
| Orders.DaysAgree | backend/src/plugins/orders.rs:534-536 | page and checkout agree on the day count whenever the start date parses |
| Orders.SatMulI64 | backend/src/plugins/orders.rs:178 | `saturating_mul`: the exact product when in range, else `i64::MAX` or `i64::MIN` by the product's sign |
| Orders.WrapI64 | backend/src/plugins/orders.rs:542 | two's-complement wrap: in range, congruent mod 2^64, the identity on i64 values |
| Orders.TotalUnits | backend/src/plugins/orders.rs:178 | `quantity.saturating_mul(days.max(1))`: always an i64; the exact product when it fits, `i64::MAX` above the range and `i64::MIN` below it |
| Orders.LineQuantity | backend/src/plugins/orders.rs:187 | `try_into::<u64>().unwrap_or(0)`: a negative unit count becomes 0 |
| Orders.PriceCentsPerDay | backend/src/plugins/orders.rs:542 | `price * 100` when it fits an i64, wrapped otherwise |
| Orders.BuildCheckout | backend/src/plugins/orders.rs:166-205 | exactly one of customer and customer email is set; the customer is set iff a stored id is present and parses; the metadata has exactly the key `order_id`, holding the decimal order id |
| Orders.CheckoutCarriesOrderId | backend/src/plugins/orders.rs:203-205 | the `order_id` a checkout carries parses back to the order's own id |
| Orders.CustomerIdOf | backend/src/plugins/orders.rs:543-546 | the renter's stored customer id, or none for a missing row |
| Orders.RentRequest | backend/src/plugins/orders.rs:438-496 | for a quantity in the i64 range, which the form's `quantity: i64` field guarantees: not signed in: redirect to login. 400 or 404 per `CheckRent`, with nothing changed. On acceptance, exactly one new row under the next id, `pending_review`, with the session's renter and the form's quantity and dates, no other row changed, and a redirect to `/orders/{id}/confirm` |
| Orders.OrderPath | backend/src/plugins/orders.rs:494 | `/orders/{id}`: the prefix `/orders/`, then text that parses back to the id |
| Orders.ConfirmSubmit | backend/src/plugins/orders.rs:514-577 | a missing order or listing is 404 and a foreign order 403, with nothing changed. Otherwise the order ends `submitted` from any status. The checkout request is sent iff the gateway is configured. Session id and URL are stored and the answer is a redirect to the URL iff a session came back; otherwise only the status changes and the pending page is shown |
| Orders.CancelOrder | backend/src/plugins/orders.rs:579-595 | unless the signed-in user owns the existing order: 403 and nothing changes. Otherwise the status becomes `cancelled` whatever it was, nothing else changes, and the answer redirects to `/orders` |
| Orders.ListedOrders | backend/src/plugins/orders.rs:601-609 | at most 100 ids, each an order of this account or email, newest first; a visible order is missing only when the page is full of newer ones |
| Orders.VisibleTo | backend/src/plugins/orders.rs:605 | `renter_user_id=?1 OR renter_email=?2`: an order is visible exactly when it is the user's by account or by email: the renter's own orders always are, and an order under another email is visible only by account |
| Orders.MyOrders | backend/src/plugins/orders.rs:597-613 | the listed ids for the signed-in user, or a redirect to login |
| Orders.TitleOf | backend/src/plugins/orders.rs:509-510 | the listing's title, or `""` when the listing is gone |
| Orders.ConfirmPage | backend/src/plugins/orders.rs:498-512 | 404 for a missing order and 403 for a foreign one. For the owner: the title, the quantity, and `quantity * days` as an i64 (exact when it fits) |
| Orders.PageUnitsMatchCheckout | backend/src/plugins/orders.rs:178 | away from overflow, with a start date that parses, the units the page shows are the units the checkout bills |
| Orders.OrderDetail | backend/src/plugins/orders.rs:615-639 | 404 for a missing order and 403 for a foreign one; the owner sees the order with its listing title |
| Payments.StoreCustomerId | backend/src/plugins/users.rs:275-278 | the UPDATE takes effect unless another user holds that id, then nothing changes; the constraints are kept |
| Payments.StoreConnectId | backend/src/plugins/users.rs:361-364 | likewise for the payout account id |
| Payments.EnsureCustomerSpec | backend/src/plugins/users.rs:258-297 | a stored id (even empty) is returned and nothing changes; no provider: `None`. With a provider and no stored id: the result is an error exactly when creation fails, and then nothing is stored; a created id is returned; when creation gives no id, the email search's answer is returned. Any change stores the returned id on that user alone |
| Payments.EnsureCustomerStoresNew | backend/src/plugins/users.rs:273-291 | an id returned for a user with none on record is stored on that user, unless another user already holds it |
| Payments.EnsureCustomerSettles | backend/src/plugins/users.rs:260-263 | once an id is returned and stored, every later call returns it and changes nothing, whatever the provider would answer |
| Payments.ClashingCustomerIdNotStored | backend/src/plugins/users.rs:273-279 | a created id another user holds is returned but not stored |
| Payments.EnsureCustomerCorrected | backend/src/plugins/users.rs:258-297 | the corrected rule reads an empty stored id as no id; for every other stored value it answers exactly as `EnsureCustomerSpec` |
| Payments.EnsureCustomer | backend/src/plugins/users.rs:258-297 | the users table and result are those of `EnsureCustomerSpec`; no other table changes |
| Payments.ConnectLinkSpec | backend/src/plugins/users.rs:335-378 | no provider: `None`, nothing changes; a stored account is reused; otherwise the created account is stored, even when the link step later fails. With a provider, the link's URL is returned exactly when an account is on record or created, its id parses and the link call answers; every other case is an error |
| Payments.ConnectReusesStoredAccount | backend/src/plugins/users.rs:352-354 | with an account on record, what creation would answer does not matter |
| Payments.ConnectCreatesOnce | backend/src/plugins/users.rs:355-366 | a created account is stored and later calls change no row |
| Payments.CreateOrGetConnectAccountAndLink | backend/src/plugins/users.rs:335-378 | the users table and result are those of `ConnectLinkSpec` |
| Payments.ConnectVerified | backend/src/plugins/users.rs:392-400 | verified iff both flags are present and true, or `currently_due` is present and empty |
| Payments.RefreshSpec | backend/src/plugins/users.rs:381-408 | only a stored, well-formed account that the provider returns updates the flag, on that user only |
| Payments.RefreshApplies | backend/src/plugins/users.rs:381-392 | the refresh applies only to a stored payout account of an existing user that the provider returned, and never without a configured client |
| Payments.RefreshConnectStatus | backend/src/plugins/users.rs:381-408 | the users table becomes `RefreshSpec` of the old one |
| Payments.PaidOrderId | backend/src/plugins/users.rs:859-863 | some id iff the event is a completed checkout whose `metadata.order_id` parses as an i64 |
| Payments.MarkVerified | backend/src/plugins/users.rs:880-884 | exactly the users holding that account get the flag; the rest are unchanged |
| Payments.AccountUpdate | backend/src/plugins/users.rs:872-880 | an `account.updated` event with a non-empty id names that account and the verified rule on its flags |
| Payments.WebhookOrders | backend/src/plugins/users.rs:859-870 | only a parsable paid order id writes, and it writes `paid` |
| Payments.WebhookUsers | backend/src/plugins/users.rs:872-886 | only an account update writes; the UNIQUE constraints are kept |
| Payments.CheckoutCompletedPaysOrder | backend/src/plugins/users.rs:859-870 | a completed checkout for an order sets exactly that order to `paid`, whatever its status, and touches no other order and no user |
| Payments.AccountUpdatedMarksHolders | backend/src/plugins/users.rs:872-886 | an account update sets the flag on exactly the holders of that account and touches no order |
| Payments.WebhookReplay | backend/src/plugins/users.rs:859-886 | delivering an event twice leaves the state one delivery leaves |
| Payments.RefreshAgreesWithWebhook | backend/src/plugins/users.rs:392-400 | refresh and webhook leave the same flag for the same account flags |
| Payments.StripeWebhook | backend/src/plugins/users.rs:840-901 | 400 iff enabled, secret and signature present and the signature bad. Any unauthenticated delivery changes nothing. An authentic one applies `WebhookOrders` and `WebhookUsers`; every other answer is 200 |
| Payments.Authentic | backend/src/plugins/users.rs:845-853 | a delivery is applied only when the feature is on and the signature checks out, and never without a secret or a signature |
| SignupController.SegmentsCharacterisation | backend/src/controller/signup.rs:59-68 | the two `@`-piece checks hold iff something precedes the first `@` and the character after it exists and is not `@` |
| SignupController.SegmentsNonEmpty | backend/src/controller/signup.rs:59-68 | the two `valid &=` piece checks; passing them already needs an `@`, so the `contains('@')` test adds nothing |
| SignupController.ControllerRuleCharacterisation | backend/src/controller/signup.rs:56-68 | the whole check is exactly `WellFormedEmail` |
| SignupController.FirstPieceEmpty | backend/src/controller/signup.rs:61-64 | the first piece is empty iff the string is empty or starts with `@` |
| SignupController.ExtraSegmentsIgnored | backend/src/controller/signup.rs:59-68 | `a@b@c` is valid |
| SignupController.RejectedShapes | backend/src/controller/signup.rs:56-64 | `""`, `@b` and `a@` are invalid |
| SignupController.EmailValidation | backend/src/controller/signup.rs:52-71 | always 200, echoing the raw email, valid iff `WellFormedEmail` |
| SignupController.SignupRequest | backend/src/controller/signup.rs:37-50 | a taken email is 500 and changes nothing; otherwise the raw name and email are inserted under the next id and the answer is 200 |
| Accounts.SignupCheck | backend/src/plugins/users.rs:484-491 | accepted iff the normalised email and trimmed name are non-empty and the password has at least 8 bytes; answers them, or 400 |
| Accounts.SignupCheckNormalises | backend/src/plugins/users.rs:484-485 | what signup stores is a fixed point of its own check |
| Accounts.PasswordLengthCountsBytes | backend/src/plugins/users.rs:486-488 | the length bound counts bytes: two 4-byte characters pass, seven ASCII ones fail |
| Accounts.SignupRequest | backend/src/plugins/users.rs:478-536 | 400 on a bad form and 409 on a taken email, nothing changed. Otherwise the normalised user is inserted under the next id, signed in, linked to a customer as `EnsureCustomerSpec` says, and redirected to `/me` |
| Accounts.PluginFormatIsControllerRule | backend/src/plugins/users.rs:545-559 | an `@` in the raw input plus the two pieces of the normalised email is the controller's rule on the normalised email |
| Accounts.EmailValidation | backend/src/plugins/users.rs:538-572 | always 200, echoing the normalised email. Valid iff well formed and not registered; when the lookup fails, well formed is enough |
| Accounts.LoginRedirect | backend/src/plugins/users.rs:596-599 | as written: `next` is followed iff it starts with `/`, else `/me` |
| Accounts.LoginRedirectLeavesSite | backend/src/plugins/users.rs:596-598 | as written, `//evil.example` is followed and is not a path on this site |
| Accounts.SafeLoginRedirect | backend/src/plugins/users.rs:596-599 | corrected: the target is always a path on this site, and `next` is followed whenever it is one |
| Accounts.SafeNext | backend/src/plugins/users.rs:596-598 | corrected test on `next`: it holds exactly for a path on this site (`IsLocalPath`) |
| Accounts.SafeRedirectNarrowsOriginal | backend/src/plugins/users.rs:596-599 | every `next` the corrected rule follows, the original followed too |
| Accounts.LoginRequest | backend/src/plugins/users.rs:580-609 | bad credentials: 401; an authentication error: 500; neither changes anything. Success signs the user in, links a customer per `EnsureCustomerSpec`, and redirects per the as-written `LoginRedirect` |
| Accounts.ProfileCheck | backend/src/plugins/users.rs:765-769 | accepted iff the trimmed name is non-empty and the raw email holds an `@`; answers trimmed name and normalised email (which holds an `@`), or 400 |
| Accounts.UpdateProfile | backend/src/plugins/users.rs:757-782 | not signed in: redirect. A bad form is 400, and a new email another user holds is 409; neither changes anything. Otherwise only this user's name and email change |
| Accounts.BackfillLimit | backend/src/plugins/users.rs:799 | `min(param or 200, 1000)` |
| Accounts.BackfillRows | backend/src/plugins/users.rs:802-810 | ascending ids above the cursor of users without a customer (NULL or `''`), at most `limit`. When the page is short it holds every such user; when full, every such user up to its last id |
| Accounts.LacksCustomer | backend/src/plugins/users.rs:803 | `stripe_customer_id IS NULL OR = ''`: a user not selected holds a non-empty customer id |
| Accounts.RunBackfill | backend/src/plugins/users.rs:811-825 | the counts add up to the rows handled; the set of user ids is kept |
| Accounts.RunBackfillSound | backend/src/plugins/users.rs:816-822 | every error reported is a row of the page; the UNIQUE constraints are kept |
| Accounts.EmptyCustomerIdReselected | backend/src/plugins/users.rs:802-819 | as written, a user stored with an empty customer id is selected, counted `created`, left unchanged, and so selected again |
| Accounts.CorrectedBackfillLinks | backend/src/plugins/users.rs:802-819 | under the corrected rule, a selected user answered with a non-empty id no other user holds gets it stored and is no longer selected |
| Accounts.RunBackfillStep | backend/src/plugins/users.rs:815-822 | handling one more row is one more `ensure_customer_for_user` on the table left so far, counted by its answer |
| Accounts.RunBackfillTouchesOnlyRows | backend/src/plugins/users.rs:816-822 | users not in the page are unchanged |
| Accounts.NextCursorFrom | backend/src/plugins/users.rs:814-817 | the running `max`: no lower than the cursor and than any row, and either the cursor or one of the rows |
| Accounts.NextCursorIsLastRow | backend/src/plugins/users.rs:802-817 | on an ascending page above the cursor, the next cursor is the page's last id |
| Accounts.BackfillDone | backend/src/plugins/users.rs:827 | as written: a page is done exactly when it is shorter than the limit, so a zero limit is never done |
| Accounts.BackfillZeroLimitStalls | backend/src/plugins/users.rs:799-828 | as written, `limit=0` answers not done with the same cursor, so paging never ends |
| Accounts.BackfillDoneCorrected | backend/src/plugins/users.rs:827 | corrected: a page that is not done is non-empty and full |
| Accounts.BackfillProgress | backend/src/plugins/users.rs:799-828 | with the corrected rule, a page that is not the last moves the cursor strictly forward and skips no user still lacking a customer |
| Accounts.LinkCustomers | backend/src/plugins/users.rs:811-825 | the loop leaves the users table and counts of `RunBackfill`, and the last id of `NextCursorFrom` |
| Accounts.AdminBackfillCustomers | backend/src/plugins/users.rs:784-838 | not signed in: redirect; not the configured administrator: 403; both with nothing changed. Otherwise it processes one page of `BackfillRows` by `RunBackfill` and reports the counts, the as-written `done` of `BackfillDone` and the next cursor |
| Lifecycle.CompletionOf | backend/src/plugins/users.rs:859-862 | the completion event carries the checkout's `order_id` metadata |
| Lifecycle.CompletedCheckoutPaysItsOrder | backend/src/plugins/orders.rs:203-205 | once the checkout built for an order completes, the webhook marks exactly that order paid and touches no user |
| Lifecycle.LastWriterDecidesStatus | backend/src/plugins/orders.rs:591 | cancel then pay ends `paid`; pay then cancel ends `cancelled` |

## Left out

- The Stripe SDK calls are not modelled. This covers customer search, create and update, account creation, account links, checkout sessions and `Webhook::construct_event`. Their outcomes are inputs to the handlers.
- The sqlx and SQLite plumbing is not modelled. This covers pools, table creation and the best-effort `ALTER TABLE` migrations. A query error is not a possible outcome: every store operation succeeds atomically. The 500 answers on insert and lookup failures are therefore not modelled, and neither is the 409 for a failed signup insert.
- axum routing, axum-login sessions and argon2 hashing are not modelled. The session is `Option<int>` looked up in the users table. Authentication is the outcome `AuthOutcome`, and the password hash is an input. A failing `auth.login` (500) is not modelled.
- The maud views are not modelled; pages are the datatype `View`. `rent_page`, `login_page`, `signup_page`, `logout_request`, `user_list`, `me_page`, `connect_verify`, `refresh_connect` and the test-only `test_mark_verified` are handlers outside this model's core.
- `push_email_name_to_stripe`, called after a profile update, only talks to the provider. It is not part of this model.
- `is_connect_verified` only reads the flag and is not part of this model.
- Logging, environment variables and the 50 ms pacing sleep are not modelled. `BASE_URL` and `ADMIN_EMAIL` are parameters.
- chrono parsing is the parameter `parse`, and `Local::now()` is the parameter `today`.
- axum's extractors reject a request before the handler runs when a field does not fit its declared type. This covers `quantity: i64` in the rent form, the `Path<u32>` listing id, the `Path<i64>` order id and the `Option<u32>`/`Option<i64>` backfill parameters. The model does not produce those rejections. Ids are unbounded integers, and Orders.RentRequest requires a quantity in the i64 range instead of answering the extractor's rejection.
- Concurrency between the webhook and user requests is not modelled: each handler is one atomic step.
- Text.Lower: only ASCII letters are lower-cased. Rust's `to_lowercase` also maps non-ASCII letters.
- Orders.ConfirmPage: `quantity * days` on the page is modelled as a wrap-around multiplication, as in a release build. A debug build would panic instead.
- Orders.PriceCentsPerDay: modelled as a wrapping multiplication, as in a release build. A debug build would panic on overflow.
- Accounts.UpdateProfile: when the email lookup itself fails, the code goes ahead with the update. The model has no lookup failure, so this path is not modelled.
- Accounts.EmailValidation: a failing lookup is the flag `lookupFailed`, not a database error.
- The listing row holds only what the order handlers read: title, price and the two date strings. `backend/src/plugins/posts.rs` declares only `notes` and does not declare these columns, so the row is taken from the order handlers' use of it.
- Text.ParseI64: it accepts an optional sign and decimal digits, which is Rust's `i64::from_str`. The `order_id` metadata is the only use.

## Findings

| source | as written | input that shows it | evidently intended | confidence | as-written member | corrected member |
|---|---|---|---|---|---|---|
| backend/src/plugins/users.rs:596-598 | `next` is followed whenever it starts with `/` | `next=//evil.example` redirects to another host (a protocol-relative URL) | follow only a path on this site, as the comment "safe (relative path)" says | not executed | Accounts.LoginRedirectLeavesSite | Accounts.SafeLoginRedirect |
| backend/src/plugins/users.rs:799, 827-828 | `done = rows.len() < limit` | `?limit=0` answers `done: false, next_cursor: cursor`, so a client that follows the cursor asks for the same empty page forever | an empty page is the last page | not executed | Accounts.BackfillZeroLimitStalls | Accounts.BackfillDoneCorrected |
| backend/src/plugins/users.rs:260-263, 803, 817 | the backfill selects a user whose customer id is `''`, but `ensure_customer_for_user` returns any stored id, the empty one included | a user stored with `stripe_customer_id = ''` is answered `Ok(Some(""))`, counted `created`, never linked, and selected again by every sweep | an empty stored id is treated as no id, as the backfill's query treats it | not executed | Accounts.EmptyCustomerIdReselected | Accounts.CorrectedBackfillLinks |

The handlers `Accounts.LoginRequest` and `Accounts.AdminBackfillCustomers` model the code as written, through `Accounts.LoginRedirect` and `Accounts.BackfillDone`. `Payments.EnsureCustomerSpec` likewise returns an empty stored id as it is. The corrected rules `Accounts.SafeLoginRedirect`, `Accounts.BackfillDoneCorrected` and `Payments.EnsureCustomerCorrected` stand beside them, with what they guarantee proved.
