/**
 * The account handlers of the users plugin: signup, the live email check,
 * login with its `next` redirect, profile update, and the administrator's
 * paginated backfill of payment customers.
 *
 * Password hashing is an input (`pwHash`), and the password check of login
 * is the outcome `AuthOutcome`.
 */
module Accounts {
  import opened Wrappers
  import opened Text
  import opened Entities
  import opened Http
  import opened Store
  import opened Tables
  import opened SignupController
  import opened Payments

  // ---------------------------------------------------------------------
  // Signup
  // ---------------------------------------------------------------------

  datatype SignupForm = SignupForm(name: string, email: string, password: string)

  const MIN_PASSWORD_BYTES: nat := 8

  /**
   * The input checks of `signup_request`: the email is trimmed and
   * lower-cased, the name trimmed; both must be left non-empty and the
   * password must be at least 8 bytes long in UTF-8. Answers the normalised
   * `(email, name)` or the status 400.
   */
  function SignupCheck(form: SignupForm): (r: Result<(string, string), int>)
    ensures r.Ok? <==>
      Normalise(form.email) != [] && Trim(form.name) != [] && Utf8Len(form.password) >= MIN_PASSWORD_BYTES
    ensures r.Ok? ==> r.value == (Normalise(form.email), Trim(form.name))
    ensures r.Err? ==> r.error == 400
  {
    var email := Normalise(form.email);
    var name := Trim(form.name);
    if email == [] || name == [] || Utf8Len(form.password) < MIN_PASSWORD_BYTES then Err(400)
    else Ok((email, name))
  }

  /**
   * What signup stores is already in normal form: checking it again would
   * accept it unchanged.
   */
  lemma SignupCheckNormalises(form: SignupForm)
    requires SignupCheck(form).Ok?
    ensures var (email, name) := SignupCheck(form).value;
      SignupCheck(SignupForm(name, email, form.password)) == Ok((email, name))
  {
    NormaliseIdempotent(form.email);
    TrimIdempotent(form.name);
  }

  /** The length bound counts bytes: two four-byte characters already make 8. */
  lemma PasswordLengthCountsBytes()
    ensures Utf8Len("\U{1F600}\U{1F600}") == MIN_PASSWORD_BYTES
    ensures Utf8Len("abcdefg") < MIN_PASSWORD_BYTES
  {
  }

  /**
   * `POST /signup`. A valid form whose normalised email is free inserts a
   * user with the normalised name and email under the next id, signs them
   * in, links a payment customer best-effort (its outcome is ignored) and
   * redirects to `/me`; a bad form is 400 and a taken email 409, and
   * neither changes anything.
   */
  method SignupRequest(db: Database, form: SignupForm, pwHash: string, gw: CustomerGateway)
    returns (resp: Response, session: Option<int>)
    requires db.Valid()
    modifies db
    ensures db.Valid()
    ensures db.orders == old(db.orders) && db.posts == old(db.posts) && db.nextOrderId == old(db.nextOrderId)
    ensures SignupCheck(form).Err? ==>
      resp == Page(400, SignupFailure) && session.None? && unchanged(db)
    ensures SignupCheck(form).Ok? && EmailTaken(old(db.users), SignupCheck(form).value.0) ==>
      resp == Page(409, SignupFailure) && session.None? && unchanged(db)
    ensures SignupCheck(form).Ok? && !EmailTaken(old(db.users), SignupCheck(form).value.0) ==>
      var (email, name) := SignupCheck(form).value;
      var id := old(db.nextUserId);
      && id !in old(db.users)
      && db.users == EnsureCustomerSpec(old(db.users)[id := NewUser(name, email, pwHash)], id, gw).users
      && db.nextUserId == id + 1
      && session == Some(id)
      && resp == Redirect("/me")
  {
    session := None;
    var check := SignupCheck(form);
    if check.Err? {
      return Page(400, SignupFailure), session;
    }
    var (email, name) := check.value;
    if EmailTaken(db.users, email) {
      return Page(409, SignupFailure), session;
    }
    var id := db.InsertUser(NewUser(name, email, pwHash));
    session := Some(id);
    var _ := EnsureCustomer(db, id, gw);
    resp := Redirect("/me");
  }

  // ---------------------------------------------------------------------
  // The live email check
  // ---------------------------------------------------------------------

  /**
   * The plugin's format test (an `@` in the raw input, then the two pieces
   * of the normalised email) is the controller's rule applied to the
   * normalised email.
   */
  lemma PluginFormatIsControllerRule(raw: string)
    ensures ('@' in raw && SegmentsNonEmpty(Normalise(raw))) <==> WellFormedEmail(Normalise(raw))
  {
    var email := Normalise(raw);
    NormaliseKeeps(raw, '@');
    ControllerRuleCharacterisation(email);
  }

  /**
   * `POST /signup/email` of the plugin: always 200, echoing the normalised
   * email; valid exactly when that email is well formed and, unless the
   * lookup failed (then only the format counts), not yet registered.
   */
  method EmailValidation(db: Database, raw: string, lookupFailed: bool) returns (resp: Response)
    ensures resp.Page? && resp.code == 200 && resp.view.EmailForm?
    ensures resp.view.email == Normalise(raw)
    ensures resp.view.valid <==>
      WellFormedEmail(Normalise(raw)) && (lookupFailed || !EmailTaken(db.users, Normalise(raw)))
  {
    var valid := '@' in raw;
    var email := Normalise(raw);
    var parts := Split(email, '@');
    valid := valid && parts[0] != [];
    valid := valid && |parts| >= 2 && parts[1] != [];
    PluginFormatIsControllerRule(raw);
    if valid && !lookupFailed && EmailTaken(db.users, email) {
      valid := false;
    }
    resp := Page(200, EmailForm(valid, email));
  }

  // ---------------------------------------------------------------------
  // Login and the `next` redirect
  // ---------------------------------------------------------------------

  /** The outcome of `authenticate`: the matching user, no match, or an error. */
  datatype AuthOutcome = Authenticated(uid: int) | BadCredentials | AuthError

  /** As written: any `next` that starts with `/` is followed. */
  function LoginRedirect(next: Option<string>): (loc: string)
    ensures next.Some? && StartsWith(next.value, "/") ==> loc == next.value
    ensures !(next.Some? && StartsWith(next.value, "/")) ==> loc == "/me"
  {
    if next.Some? && StartsWith(next.value, "/") then next.value else "/me"
  }

  /**
   * A path on this site. A reference starting with `//` (or `/\`, which
   * browsers read the same way) names another host, not a path.
   */
  ghost predicate IsLocalPath(p: string) {
    |p| >= 1 && p[0] == '/' && (|p| == 1 || (p[1] != '/' && p[1] != '\\'))
  }

  /** As written, a `next` of `//evil.example` sends the user to another site. */
  lemma LoginRedirectLeavesSite()
    ensures LoginRedirect(Some("//evil.example")) == "//evil.example"
    ensures !IsLocalPath(LoginRedirect(Some("//evil.example")))
  {
  }

  /** A `next` the corrected rule follows: a relative path that stays on this site. */
  function SafeNext(dest: string): (b: bool)
    ensures b <==> IsLocalPath(dest)
  {
    StartsWith(dest, "/") && !StartsWith(dest, "//") && !StartsWith(dest, "/\\")
  }

  /** Corrected: follow `next` only when it is a path on this site. */
  function SafeLoginRedirect(next: Option<string>): (loc: string)
    ensures IsLocalPath(loc)
    ensures loc == "/me" || (next.Some? && loc == next.value)
    ensures next.Some? && IsLocalPath(next.value) ==> loc == next.value
  {
    if next.Some? && SafeNext(next.value) then next.value else "/me"
  }

  /** The correction only narrows the rule: every `next` it follows, the original followed too. */
  lemma SafeRedirectNarrowsOriginal(next: Option<string>)
    ensures SafeLoginRedirect(next) != "/me" ==> SafeLoginRedirect(next) == LoginRedirect(next)
  {
  }

  /**
   * `POST /login`. A user who authenticates is signed in, gets a payment
   * customer best-effort, and is sent to `next` when it starts with `/`
   * (a protocol-relative `//host` included) and to `/me` otherwise; bad credentials are 401 and an
   * authentication error 500, with nothing changed.
   */
  method LoginRequest(db: Database, auth: AuthOutcome, next: Option<string>, gw: CustomerGateway)
    returns (resp: Response, session: Option<int>)
    requires db.Valid()
    requires auth.Authenticated? ==> auth.uid in db.users
    modifies db
    ensures db.Valid()
    ensures db.orders == old(db.orders) && db.posts == old(db.posts)
    ensures db.nextOrderId == old(db.nextOrderId) && db.nextUserId == old(db.nextUserId)
    ensures auth == BadCredentials ==> resp == Page(401, LoginForm) && session.None? && unchanged(db)
    ensures auth == AuthError ==> resp == Page(500, NotFoundPage) && session.None? && unchanged(db)
    ensures auth.Authenticated? ==>
      && session == Some(auth.uid)
      && resp == Redirect(LoginRedirect(next))
      && db.users == EnsureCustomerSpec(old(db.users), auth.uid, gw).users
  {
    match auth
    case BadCredentials =>
      resp, session := Page(401, LoginForm), None;
    case AuthError =>
      resp, session := Page(500, NotFoundPage), None;
    case Authenticated(uid) =>
      session := Some(uid);
      var _ := EnsureCustomer(db, uid, gw);
      resp := Redirect(LoginRedirect(next));
  }

  // ---------------------------------------------------------------------
  // Profile update
  // ---------------------------------------------------------------------

  /**
   * The input checks of `update_profile`: the trimmed name and the
   * normalised email must be non-empty and the email must hold an `@`.
   * Answers `(name, email)` or the status 400.
   */
  function ProfileCheck(rawName: string, rawEmail: string): (r: Result<(string, string), int>)
    ensures r.Ok? <==> Trim(rawName) != [] && '@' in rawEmail
    ensures r.Ok? ==> r.value == (Trim(rawName), Normalise(rawEmail)) && '@' in r.value.1
    ensures r.Err? ==> r.error == 400
  {
    var name := Trim(rawName);
    var email := Normalise(rawEmail);
    NormaliseKeeps(rawEmail, '@');
    if name == [] || email == [] || '@' !in email then Err(400) else Ok((name, email))
  }

  /**
   * `POST /me/profile`. The signed-in user's name and email are replaced
   * by the checked ones; moving to an email another account holds is 409,
   * a bad form 400, and neither changes anything.
   */
  method UpdateProfile(db: Database, session: Option<int>, rawName: string, rawEmail: string)
    returns (resp: Response)
    requires db.Valid()
    modifies db
    ensures db.Valid()
    ensures db.orders == old(db.orders) && db.posts == old(db.posts)
    ensures db.nextOrderId == old(db.nextOrderId) && db.nextUserId == old(db.nextUserId)
    ensures !LoggedIn(old(db.users), session) ==> resp == Redirect("/login") && unchanged(db)
    ensures LoggedIn(old(db.users), session) && ProfileCheck(rawName, rawEmail).Err? ==>
      resp == Page(400, NotFoundPage) && unchanged(db)
    ensures LoggedIn(old(db.users), session) && ProfileCheck(rawName, rawEmail).Ok? ==>
      var (name, email) := ProfileCheck(rawName, rawEmail).value;
      var uid := session.value;
      if email != old(db.users)[uid].email && EmailTaken(old(db.users), email) then
        resp == Page(409, NotFoundPage) && unchanged(db)
      else
        && db.users == old(db.users)[uid := old(db.users)[uid].(name := name, email := email)]
        && resp == Redirect("/me")
  {
    if !LoggedIn(db.users, session) {
      return Redirect("/login");
    }
    var uid := session.value;
    var check := ProfileCheck(rawName, rawEmail);
    if check.Err? {
      return Page(400, NotFoundPage);
    }
    var (name, email) := check.value;
    if email != db.users[uid].email && EmailTaken(db.users, email) {
      return Page(409, NotFoundPage);
    }
    db.Rename(uid, name, email);
    resp := Redirect("/me");
  }

  // ---------------------------------------------------------------------
  // Backfill of payment customers
  // ---------------------------------------------------------------------

  const DEFAULT_BACKFILL_LIMIT: nat := 200
  const MAX_BACKFILL_LIMIT: nat := 1000

  /** `limit.unwrap_or(200).min(1000)`. */
  function BackfillLimit(param: Option<nat>): (limit: nat)
    ensures limit <= MAX_BACKFILL_LIMIT
    ensures param.None? ==> limit == DEFAULT_BACKFILL_LIMIT
    ensures param.Some? ==> limit == if param.value < MAX_BACKFILL_LIMIT then param.value else MAX_BACKFILL_LIMIT
  {
    var asked := param.GetOr(DEFAULT_BACKFILL_LIMIT);
    if asked < MAX_BACKFILL_LIMIT then asked else MAX_BACKFILL_LIMIT
  }

  /** `stripe_customer_id IS NULL OR stripe_customer_id = ''`. */
  function LacksCustomer(u: User): (b: bool)
    ensures !b ==> u.stripeCustomerId.Some? && u.stripeCustomerId.value != []
  {
    u.stripeCustomerId.None? || u.stripeCustomerId == Some("")
  }

  /**
   * The rows one backfill page handles: users without a customer and with
   * an id above the cursor, ascending, at most `limit` of them. A user it
   * leaves out lies beyond a full page.
   */
  function BackfillRows(users: map<int, User>, nextId: int, cursor: int, limit: nat): (rows: seq<int>)
    requires forall id :: id in users ==> 1 <= id < nextId
    ensures |rows| <= limit
    ensures forall k :: 0 <= k < |rows| ==> rows[k] in users && rows[k] > cursor && LacksCustomer(users[rows[k]])
    ensures forall i, j :: 0 <= i < j < |rows| ==> rows[i] < rows[j]
    ensures forall id :: id in users && id > cursor && LacksCustomer(users[id]) && id !in rows ==>
      |rows| == limit && (limit > 0 ==> id > rows[|rows| - 1])
  {
    var lo := if cursor + 1 > 1 then cursor + 1 else 1;
    PageAsc(lo, nextId, k => k in users && LacksCustomer(users[k]), limit)
  }

  /** What running `ensure_customer_for_user` over the rows, in order, does. */
  datatype BackfillRun = BackfillRun(created: nat, existing: nat, errors: seq<int>, users: map<int, User>)

  /** The provider's answers, one per user id. */
  type GatewayByUser = int -> CustomerGateway

  /**
   * The loop of `admin_backfill_customers`, as a function of the rows and the
   * table: the run over all rows but the last, then one more
   * `ensure_customer_for_user` on the table that run left behind.
   */
  function RunBackfill(users: map<int, User>, rows: seq<int>, gw: GatewayByUser): (run: BackfillRun)
    ensures run.created + run.existing + |run.errors| == |rows|
    ensures run.users.Keys == users.Keys
    decreases |rows|
  {
    if rows == [] then BackfillRun(0, 0, [], users)
    else
      var id := rows[|rows| - 1];
      var prev := RunBackfill(users, rows[..|rows| - 1], gw);
      var step := EnsureCustomerSpec(prev.users, id, gw(id));
      match step.result
      case Ok(Some(_)) => BackfillRun(prev.created + 1, prev.existing, prev.errors, step.users)
      case Ok(None) => BackfillRun(prev.created, prev.existing + 1, prev.errors, step.users)
      case Err(_) => BackfillRun(prev.created, prev.existing, prev.errors + [id], step.users)
  }

  /** How one answer moves the counts: a customer linked, none found, or a failure of that id. */
  predicate Counted(result: Result<Option<string>, GatewayFailure>, id: int, before: BackfillRun, after: BackfillRun) {
    match result
    case Ok(Some(_)) => after.created == before.created + 1 && after.existing == before.existing && after.errors == before.errors
    case Ok(None) => after.created == before.created && after.existing == before.existing + 1 && after.errors == before.errors
    case Err(_) => after.created == before.created && after.existing == before.existing && after.errors == before.errors + [id]
  }

  /** Handling row i after the rows before it: one more call on the table they left, counted by its answer. */
  lemma RunBackfillStep(users: map<int, User>, rows: seq<int>, i: nat, gw: GatewayByUser)
    requires i < |rows|
    ensures var prev := RunBackfill(users, rows[..i], gw);
      var step := EnsureCustomerSpec(prev.users, rows[i], gw(rows[i]));
      var next := RunBackfill(users, rows[..i + 1], gw);
      next.users == step.users && Counted(step.result, rows[i], prev, next)
  {
    assert rows[..i + 1][..i] == rows[..i];
  }

  /** Every failure reported is a row of the page, and the run keeps the UNIQUE constraints. */
  lemma {:induction false} RunBackfillSound(users: map<int, User>, rows: seq<int>, gw: GatewayByUser)
    ensures var run := RunBackfill(users, rows, gw);
      && (forall k :: 0 <= k < |run.errors| ==> run.errors[k] in rows)
      && (UsersConstraints(users) ==> UsersConstraints(run.users))
    decreases |rows|
  {
    if rows != [] {
      var front := rows[..|rows| - 1];
      var id := rows[|rows| - 1];
      RunBackfillSound(users, front, gw);
      var prev := RunBackfill(users, front, gw);
      var step := EnsureCustomerSpec(prev.users, id, gw(id));
      var run := RunBackfill(users, rows, gw);
      assert run.users == step.users;
      assert run.errors == prev.errors || run.errors == prev.errors + [id];
      forall k | 0 <= k < |run.errors|
        ensures run.errors[k] in rows
      {
        if k < |prev.errors| {
          assert run.errors[k] == prev.errors[k] && prev.errors[k] in front;
        } else {
          assert run.errors[k] == id;
        }
      }
    }
  }

  /**
   * A user whose stored customer id is the empty string is selected by the
   * backfill, answered with that empty id and counted as `created`, and its
   * row is left as it was: every later sweep selects it again.
   */
  lemma EmptyCustomerIdReselected(users: map<int, User>, uid: int, gw: GatewayByUser)
    requires uid in users && users[uid].stripeCustomerId == Some("")
    ensures LacksCustomer(users[uid])
    ensures var run := RunBackfill(users, [uid], gw);
      run.created == 1 && run.users == users && LacksCustomer(run.users[uid])
  {
    assert [uid][..0] == [];
  }

  /**
   * With an empty stored id read as no id, a selected user that is answered
   * with a non-empty id no other user holds gets that id stored, so the
   * backfill does not select it again.
   */
  lemma CorrectedBackfillLinks(users: map<int, User>, uid: int, gw: CustomerGateway)
    requires uid in users && LacksCustomer(users[uid])
    requires gw.create.Created? ==> gw.create.id != []
    requires gw.foundByEmail.Some? ==> gw.foundByEmail.value != []
    ensures var s := EnsureCustomerCorrected(users, uid, gw);
      s.result.Ok? && s.result.value.Some? && !CustomerIdTakenByOther(users, uid, s.result.value.value) ==>
        s.users[uid].stripeCustomerId == s.result.value && !LacksCustomer(s.users[uid])
  {
  }

  /** Users not in the page are left as they were. */
  lemma {:induction false} RunBackfillTouchesOnlyRows(users: map<int, User>, rows: seq<int>, gw: GatewayByUser)
    ensures forall k :: k in users && k !in rows ==> RunBackfill(users, rows, gw).users[k] == users[k]
    decreases |rows|
  {
    if rows != [] {
      var front := rows[..|rows| - 1];
      RunBackfillTouchesOnlyRows(users, front, gw);
      forall k | k in users && k !in rows
        ensures RunBackfill(users, rows, gw).users[k] == users[k]
      {
        assert k !in front by {
          assert forall x :: x in front ==> x in rows;
        }
        assert k != rows[|rows| - 1];
      }
    }
  }

  /** As written: the page is done when it came back shorter than the limit. */
  function BackfillDone(rowCount: nat, limit: nat): (done: bool)
    ensures done ==> limit > 0
    ensures rowCount >= limit ==> !done
    ensures rowCount < limit ==> done
  {
    rowCount < limit
  }

  /**
   * The cursor for the next page, `last_id = id.max(last_id)` over the rows
   * in turn: the largest id handled, and the old cursor when none is larger.
   */
  function NextCursorFrom(rows: seq<int>, cursor: int): (c: int)
    ensures c >= cursor
    ensures forall k :: 0 <= k < |rows| ==> rows[k] <= c
    ensures c == cursor || c in rows
    decreases |rows|
  {
    if rows == [] then cursor
    else
      var last := rows[|rows| - 1];
      var before := NextCursorFrom(rows[..|rows| - 1], cursor);
      assert before == cursor || before in rows by {
        assert forall x :: x in rows[..|rows| - 1] ==> x in rows;
      }
      if last > before then last else before
  }

  /** Handling row i raises the cursor to that row when it is larger. */
  lemma NextCursorStep(rows: seq<int>, i: nat, cursor: int)
    requires i < |rows|
    ensures var before := NextCursorFrom(rows[..i], cursor);
      NextCursorFrom(rows[..i + 1], cursor) == if rows[i] > before then rows[i] else before
  {
    assert rows[..i + 1][..i] == rows[..i];
  }

  /** On a page that is ascending and above the cursor, the next cursor is its last id. */
  lemma NextCursorIsLastRow(rows: seq<int>, cursor: int)
    requires forall k :: 0 <= k < |rows| ==> rows[k] > cursor
    requires forall i, j :: 0 <= i < j < |rows| ==> rows[i] < rows[j]
    ensures rows != [] ==> NextCursorFrom(rows, cursor) == rows[|rows| - 1]
  {
    if rows != [] {
      var c := NextCursorFrom(rows, cursor);
      if c != cursor {
        var m :| 0 <= m < |rows| && rows[m] == c;
        assert m == |rows| - 1 || rows[m] < rows[|rows| - 1];
      }
    }
  }

  /**
   * As written, `?limit=0` never finishes: the page is empty, yet it is not
   * done and the cursor it hands back is the one it was given, so a client
   * that follows `next_cursor` asks for the same page forever.
   */
  lemma BackfillZeroLimitStalls(cursor: int)
    ensures BackfillLimit(Some(0)) == 0
    ensures !BackfillDone(0, BackfillLimit(Some(0)))
    ensures NextCursorFrom([], cursor) == cursor
  {
  }

  /** Corrected: an empty page is also the last one. */
  function BackfillDoneCorrected(rowCount: nat, limit: nat): (done: bool)
    ensures !done ==> rowCount > 0 && rowCount >= limit
    ensures rowCount < limit ==> done
  {
    rowCount < limit || rowCount == 0
  }

  /**
   * With the corrected rule, every page that is not the last moves the
   * cursor strictly forward, and skips no user that still lacked a customer.
   */
  lemma BackfillProgress(users: map<int, User>, nextId: int, cursor: int, param: Option<nat>)
    requires forall id :: id in users ==> 1 <= id < nextId
    ensures var rows := BackfillRows(users, nextId, cursor, BackfillLimit(param));
      !BackfillDoneCorrected(|rows|, BackfillLimit(param)) ==>
        && NextCursorFrom(rows, cursor) > cursor
        && forall id :: id in users && cursor < id <= NextCursorFrom(rows, cursor) && LacksCustomer(users[id]) ==> id in rows
  {
    var rows := BackfillRows(users, nextId, cursor, BackfillLimit(param));
    NextCursorIsLastRow(rows, cursor);
  }

  /**
   * The loop of `admin_backfill_customers`: for each row, in order, raise
   * the last id seen and link a customer, counting what came back.
   */
  method LinkCustomers(db: Database, rows: seq<int>, cursor: int, gw: GatewayByUser)
    returns (created: nat, existing: nat, errors: seq<int>, lastId: int)
    requires db.Valid()
    modifies db
    ensures db.Valid()
    ensures db.orders == old(db.orders) && db.posts == old(db.posts)
    ensures db.nextOrderId == old(db.nextOrderId) && db.nextUserId == old(db.nextUserId)
    ensures var run := RunBackfill(old(db.users), rows, gw);
      && db.users == run.users
      && created == run.created && existing == run.existing && errors == run.errors
    ensures lastId == NextCursorFrom(rows, cursor)
  {
    created, existing, errors, lastId := 0, 0, [], cursor;
    var i := 0;
    while i < |rows|
      invariant 0 <= i <= |rows|
      invariant db.Valid()
      invariant db.orders == old(db.orders) && db.posts == old(db.posts)
      invariant db.nextOrderId == old(db.nextOrderId) && db.nextUserId == old(db.nextUserId)
      invariant lastId == NextCursorFrom(rows[..i], cursor)
      invariant RunBackfill(old(db.users), rows[..i], gw) == BackfillRun(created, existing, errors, db.users)
    {
      var id := rows[i];
      NextCursorStep(rows, i, cursor);
      lastId := if id > lastId then id else lastId;
      RunBackfillStep(old(db.users), rows, i, gw);
      var r := EnsureCustomer(db, id, gw(id));
      match r {
        case Ok(Some(_)) => created := created + 1;
        case Ok(None) => existing := existing + 1;
        case Err(_) => errors := errors + [id];
      }
      i := i + 1;
    }
    assert rows[..i] == rows;
  }

  /**
   * `POST /admin/stripe/backfill-customers`. Only the signed-in administrator (the
   * `ADMIN_EMAIL` account, which must be set) may run it. One page of users
   * without a customer is linked, in ascending id order; the report counts
   * the ids linked, the ones the provider had none for and the failures,
   * and says whether this was the last page and where the next one starts.
   */
  method AdminBackfillCustomers(
    db: Database, session: Option<int>, adminEmail: string,
    limitParam: Option<nat>, cursorParam: Option<int>, gw: GatewayByUser)
    returns (resp: Response)
    requires db.Valid()
    modifies db
    ensures db.Valid()
    ensures db.orders == old(db.orders) && db.posts == old(db.posts)
    ensures db.nextOrderId == old(db.nextOrderId) && db.nextUserId == old(db.nextUserId)
    ensures !LoggedIn(old(db.users), session) ==> resp == Redirect("/login") && unchanged(db)
    ensures LoggedIn(old(db.users), session) && (adminEmail == [] || old(db.users)[session.value].email != adminEmail) ==>
      resp == Page(403, NotFoundPage) && unchanged(db)
    ensures LoggedIn(old(db.users), session) && adminEmail != [] && old(db.users)[session.value].email == adminEmail ==>
      var limit := BackfillLimit(limitParam);
      var cursor := cursorParam.GetOr(0);
      var rows := BackfillRows(old(db.users), old(db.nextUserId), cursor, limit);
      var run := RunBackfill(old(db.users), rows, gw);
      var done := BackfillDone(|rows|, limit);
      && db.users == run.users
      && resp == Page(200, BackfillReport(|rows|, run.created, run.existing, run.errors, done,
                                          if done then None else Some(NextCursorFrom(rows, cursor))))
  {
    if !LoggedIn(db.users, session) {
      return Redirect("/login");
    }
    if adminEmail == [] || db.users[session.value].email != adminEmail {
      return Page(403, NotFoundPage);
    }
    var limit := BackfillLimit(limitParam);
    var cursor := cursorParam.GetOr(0);
    var rows := BackfillRows(db.users, db.nextUserId, cursor, limit);
    var created, existing, errors, lastId := LinkCustomers(db, rows, cursor, gw);
    var done := BackfillDone(|rows|, limit);
    var nextCursor := if done then None else Some(lastId);
    resp := Page(200, BackfillReport(|rows|, created, existing, errors, done, nextCursor));
  }
}
