/**
 * The older signup controller: its email-format check, which the users
 * plugin reuses on a normalised email, and its plain insert-only signup.
 */
module SignupController {
  import opened Text
  import opened Entities
  import opened Http
  import opened Store

  /**
   * The two `valid &=` steps: the first `@`-piece is non-empty, and there is
   * a second piece and it is non-empty. Later pieces are never looked at.
   */
  function SegmentsNonEmpty(email: string): (b: bool)
    ensures b ==> '@' in email
  {
    var parts := Split(email, '@');
    SplitHasSecond(email, '@');
    parts[0] != [] && |parts| >= 2 && parts[1] != []
  }

  /**
   * The same rule stated on the characters: there is an `@`, something comes
   * before the first one, and the character right after it exists and is
   * not another `@`.
   */
  ghost predicate WellFormedEmail(email: string) {
    '@' in email
    && 0 < FirstIndex(email, '@')
    && FirstIndex(email, '@') + 1 < |email|
    && email[FirstIndex(email, '@') + 1] != '@'
  }

  /** The first piece of a split is empty exactly when the string is empty or starts with the separator. */
  lemma FirstPieceEmpty(s: string, sep: char)
    ensures Split(s, sep)[0] == [] <==> s == [] || s[0] == sep
  {
    SplitFirst(s, sep);
    if sep in s {
      var i := FirstIndex(s, sep);
      assert i == 0 <==> s[0] == sep;
    }
  }

  /** The piece-by-piece check and the character statement agree on every string. */
  lemma SegmentsCharacterisation(email: string)
    ensures SegmentsNonEmpty(email) <==> WellFormedEmail(email)
  {
    var parts := Split(email, '@');
    FirstPieceEmpty(email, '@');
    SplitHasSecond(email, '@');
    if '@' in email {
      var i := FirstIndex(email, '@');
      var rest := email[i + 1..];
      FirstPieceEmpty(rest, '@');
      assert parts[1] == Split(rest, '@')[0];
      assert rest != [] ==> rest[0] == email[i + 1];
    }
  }

  /** The whole check of the controller, `contains('@')` included, is the character rule. */
  lemma ControllerRuleCharacterisation(email: string)
    ensures ('@' in email && SegmentsNonEmpty(email)) <==> WellFormedEmail(email)
  {
    SegmentsCharacterisation(email);
  }

  /** `a@b@c` passes: pieces after the second are ignored. */
  lemma ExtraSegmentsIgnored()
    ensures SegmentsNonEmpty("a@b@c") && WellFormedEmail("a@b@c")
  {
    SegmentsCharacterisation("a@b@c");
    assert FirstIndex("a@b@c", '@') == 1;
  }

  /** The empty string, a missing local part and a missing domain all fail. */
  lemma RejectedShapes()
    ensures !WellFormedEmail("") && !WellFormedEmail("@b") && !WellFormedEmail("a@")
  {
    assert FirstIndex("@b", '@') == 0;
    assert FirstIndex("a@", '@') == 1;
  }

  /**
   * `POST /signup/email` of the controller: always 200, echoing the email as
   * it was sent, valid exactly when it is well formed.
   */
  method EmailValidation(email: string) returns (resp: Response)
    ensures resp.Page? && resp.code == 200 && resp.view.EmailForm?
    ensures resp.view.email == email
    ensures resp.view.valid <==> WellFormedEmail(email)
  {
    var valid := '@' in email;
    var parts := Split(email, '@');
    valid := valid && parts[0] != [];
    valid := valid && |parts| >= 2 && parts[1] != [];
    ControllerRuleCharacterisation(email);
    resp := Page(200, EmailForm(valid, email));
  }

  /**
   * `POST /signup` of the controller: the raw name and email are inserted
   * as sent; the only insert that fails is one the UNIQUE email column
   * refuses, answered 500. Its table has no password column.
   */
  method SignupRequest(db: Database, name: string, email: string) returns (resp: Response)
    requires db.Valid()
    modifies db
    ensures db.Valid()
    ensures db.orders == old(db.orders) && db.posts == old(db.posts) && db.nextOrderId == old(db.nextOrderId)
    ensures EmailTaken(old(db.users), email) ==> resp == Page(500, SignupFailure) && unchanged(db)
    ensures !EmailTaken(old(db.users), email) ==>
      && resp == Page(200, SignupSuccess)
      && old(db.nextUserId) !in old(db.users)
      && db.users == old(db.users)[old(db.nextUserId) := NewUser(name, email, "")]
      && db.nextUserId == old(db.nextUserId) + 1
  {
    if EmailTaken(db.users, email) {
      return Page(500, SignupFailure);
    }
    var _ := db.InsertUser(NewUser(name, email, ""));
    resp := Page(200, SignupSuccess);
  }
}
