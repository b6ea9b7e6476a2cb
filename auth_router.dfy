/** The server's password-reset routes: `forgot-password` issues a token that
    lives one hour, `reset-password/:resetToken` accepts a live token once.
    The clock, the random token and the password hash are parameters. */
module AuthRouter {
  import opened Wrappers
  import opened Lists
  import Users

  type User = Users.User

  /** One hour, in milliseconds. */
  const TokenLifetime := 3600000

  /** The status code sent, and the user collection afterwards, in its natural order. */
  datatype Reply = Reply(code: int, users: seq<User>)

  /** The filter `{ email: email }`. */
  function HasEmail(email: string): User -> bool {
    (u: User) => u.email == Some(email)
  }

  /** `u` holds `token` and it has not expired at `now`. */
  predicate LiveToken(u: User, token: string, now: int) {
    u.resetToken == Some(token) && u.resetTokenExpiry.Some? && u.resetTokenExpiry.value > now
  }

  /** The reset lookup: the user holds the token and its expiry lies strictly after `now`. */
  function HoldsLiveToken(token: string, now: int): User -> bool {
    (u: User) => LiveToken(u, token, now)
  }

  /** `POST /forgot-password`. `email` is `None` when the body's email is not
      a string; `mailOk` says whether the reset mail went out. */
  function Forgot(users: seq<User>, email: Option<string>, now: int, token: string, mailOk: bool): (r: Reply)
    ensures |r.users| == |users|
    ensures r.code == 400 <==> email.None?
    ensures r.code == 404 <==> email.Some? && forall j :: 0 <= j < |users| ==> users[j].email != email
    ensures r.code in {400, 404} ==> r.users == users
    ensures r.code in {200, 500} ==>
      email.Some? &&
      var i := FirstIndex(users, HasEmail(email.value));
      && 0 <= i && users[i].email == email
      && r.users[i] == users[i].(resetToken := Some(token), resetTokenExpiry := Some(now + TokenLifetime))
      && forall j :: 0 <= j < |users| && j != i ==> r.users[j] == users[j]
    ensures r.code == 500 <==> r.code != 400 && r.code != 404 && !mailOk
    ensures r.code in {200, 400, 404, 500}
  {
    if email.None? then Reply(400, users)
    else
      var i := FirstIndex(users, HasEmail(email.value));
      if i == -1 then Reply(404, users)
      else
        var u := users[i].(resetToken := Some(token), resetTokenExpiry := Some(now + TokenLifetime));
        Reply(if mailOk then 200 else 500, users[i := u])
  }

  /** `POST /reset-password/:resetToken`. `newPassword` is `None` when it is
      not a string in the body. */
  function Reset(users: seq<User>, token: string, newPassword: Option<string>, now: int, hash: string -> string): (r: Reply)
    ensures |r.users| == |users|
    ensures r.code == 200 <==> newPassword.Some? && exists j :: 0 <= j < |users| && LiveToken(users[j], token, now)
    ensures r.code != 200 ==> r.code == 400 && r.users == users
    ensures r.code == 200 ==>
      var i := FirstIndex(users, HoldsLiveToken(token, now));
      && 0 <= i && LiveToken(users[i], token, now)
      && r.users[i] == users[i].(password := hash(newPassword.value), resetToken := None, resetTokenExpiry := None)
      && forall j :: 0 <= j < |users| && j != i ==> r.users[j] == users[j]
  {
    if newPassword.None? then Reply(400, users)
    else
      var i := FirstIndex(users, HoldsLiveToken(token, now));
      if i == -1 then Reply(400, users)
      else
        var u := users[i].(password := hash(newPassword.value), resetToken := None, resetTokenExpiry := None);
        Reply(200, users[i := u])
  }

  /** No user other than the one at index `i` holds `token`. */
  predicate OnlyHolder(users: seq<User>, token: string, i: int) {
    forall j :: 0 <= j < |users| && j != i ==> users[j].resetToken != Some(token)
  }

  /** A token is accepted once: after a successful reset, the same token is
      refused at any later (or earlier) time with any password, provided no
      other user happened to hold the same token. */
  lemma {:induction false} TokenIsSingleUse(users: seq<User>, token: string, pw: Option<string>, now: int,
                                            hash: string -> string, pw2: Option<string>, later: int)
    requires Reset(users, token, pw, now, hash).code == 200
    requires OnlyHolder(users, token, FirstIndex(users, HoldsLiveToken(token, now)))
    ensures Reset(Reset(users, token, pw, now, hash).users, token, pw2, later, hash).code == 400
  {
    var i := FirstIndex(users, HoldsLiveToken(token, now));
    var after := Reset(users, token, pw, now, hash).users;
    forall j | 0 <= j < |after| ensures !LiveToken(after[j], token, later) {
      if j != i {
        assert after[j] == users[j];
      }
    }
  }

  /** The token issued for an email resets that user's password at any time
      strictly before the hour is up, provided it is the only holder. */
  lemma {:induction false} ForgotThenReset(users: seq<User>, email: string, now: int, token: string, mailOk: bool,
                                           pw: string, later: int, hash: string -> string)
    requires Forgot(users, Some(email), now, token, mailOk).code in {200, 500}
    requires OnlyHolder(users, token, FirstIndex(users, HasEmail(email)))
    requires later < now + TokenLifetime
    ensures var issued := Forgot(users, Some(email), now, token, mailOk).users;
      var i := FirstIndex(users, HasEmail(email));
      && Reset(issued, token, Some(pw), later, hash).code == 200
      && Reset(issued, token, Some(pw), later, hash).users[i].password == hash(pw)
  {
    var issued := Forgot(users, Some(email), now, token, mailOk).users;
    var i := FirstIndex(users, HasEmail(email));
    assert LiveToken(issued[i], token, later);
    forall j | 0 <= j < i ensures !LiveToken(issued[j], token, later) {
      assert issued[j] == users[j];
    }
    assert FirstIndex(issued, HoldsLiveToken(token, later)) == i;
  }

  /** Once the hour is up the issued token is refused, provided it is the only holder. */
  lemma {:induction false} ExpiredTokenRefused(users: seq<User>, email: string, now: int, token: string, mailOk: bool,
                                               pw: Option<string>, later: int, hash: string -> string)
    requires Forgot(users, Some(email), now, token, mailOk).code in {200, 500}
    requires OnlyHolder(users, token, FirstIndex(users, HasEmail(email)))
    requires later >= now + TokenLifetime
    ensures Reset(Forgot(users, Some(email), now, token, mailOk).users, token, pw, later, hash).code == 400
  {
    var issued := Forgot(users, Some(email), now, token, mailOk).users;
    var i := FirstIndex(users, HasEmail(email));
    forall j | 0 <= j < |issued| ensures !LiveToken(issued[j], token, later) {
      if j != i {
        assert issued[j] == users[j];
      }
    }
  }

  /** A second request for the same email replaces the first token: the
      user then holds only the new one, with a fresh hour. */
  lemma {:induction false} NewTokenReplacesOld(users: seq<User>, email: string, now1: int, t1: string,
                                               now2: int, t2: string, mailOk: bool)
    requires Forgot(users, Some(email), now1, t1, mailOk).code in {200, 500}
    ensures var once := Forgot(users, Some(email), now1, t1, mailOk).users;
      var twice := Forgot(once, Some(email), now2, t2, mailOk);
      var i := FirstIndex(users, HasEmail(email));
      && twice.code in {200, 500}
      && twice.users[i].resetToken == Some(t2)
      && twice.users[i].resetTokenExpiry == Some(now2 + TokenLifetime)
  {
    var once := Forgot(users, Some(email), now1, t1, mailOk).users;
    var i := FirstIndex(users, HasEmail(email));
    forall j | 0 <= j < i ensures !HasEmail(email)(once[j]) {
      assert once[j] == users[j];
    }
    assert HasEmail(email)(once[i]);
    assert FirstIndex(once, HasEmail(email)) == i;
  }

  /** No stored user holds a reset token: what `models/User.js` leaves in the
      collection, since it declares no reset-token paths and Mongoose's strict
      mode drops undeclared paths on save. */
  predicate NoStoredTokens(users: seq<User>) {
    forall j :: 0 <= j < |users| ==> users[j].resetToken.None? && users[j].resetTokenExpiry.None?
  }

  /** `POST /forgot-password` against the schema as written: the same codes as
      `Forgot`, but the token and its expiry are dropped on save, so the
      collection is unchanged. */
  function ForgotAsWritten(users: seq<User>, email: Option<string>, now: int, token: string, mailOk: bool): (r: Reply)
    ensures r.code == Forgot(users, email, now, token, mailOk).code
    ensures r.users == users
  {
    if email.None? then Reply(400, users)
    else if FirstIndex(users, HasEmail(email.value)) == -1 then Reply(404, users)
    else Reply(if mailOk then 200 else 500, users)
  }

  /** With the schema as written and the filter kept as given, the mailed token
      never resets a password: the reset always answers 400. */
  lemma {:induction false} MailedTokenNeverResets(users: seq<User>, email: string, now: int, token: string, mailOk: bool,
                                                  pw: Option<string>, later: int, hash: string -> string)
    requires NoStoredTokens(users)
    ensures NoStoredTokens(ForgotAsWritten(users, Some(email), now, token, mailOk).users)
    ensures Reset(ForgotAsWritten(users, Some(email), now, token, mailOk).users, token, pw, later, hash).code == 400
  {
    var stored := ForgotAsWritten(users, Some(email), now, token, mailOk).users;
    forall j | 0 <= j < |stored| ensures !LiveToken(stored[j], token, later) {
      assert stored[j].resetToken.None?;
    }
  }

  /** `POST /reset-password/:resetToken` against the schema as written, when
      Mongoose strips undeclared paths from query filters: the filter becomes
      empty and matches the first user, whatever the token; only the password
      is saved. */
  function ResetStrippedFilter(users: seq<User>, token: string, newPassword: Option<string>, hash: string -> string): (r: Reply)
    ensures |r.users| == |users|
    ensures r.code == 200 <==> newPassword.Some? && |users| > 0
    ensures r.code == 200 ==>
      && r.users[0] == users[0].(password := hash(newPassword.value))
      && forall j :: 0 < j < |users| ==> r.users[j] == users[j]
    ensures r.code != 200 ==> r.code == 400 && r.users == users
  {
    if newPassword.None? || |users| == 0 then Reply(400, users)
    else Reply(200, users[0 := users[0].(password := hash(newPassword.value))])
  }

  /** With the filter stripped, any token, even one never issued, resets the
      first user's password, where the intended lookup refuses it. */
  lemma {:induction false} AnyTokenResetsFirstUser(users: seq<User>, guess: string, pw: string, now: int,
                                                   hash: string -> string)
    requires |users| > 0
    requires NoStoredTokens(users)
    ensures Reset(users, guess, Some(pw), now, hash).code == 400
    ensures ResetStrippedFilter(users, guess, Some(pw), hash).code == 200
    ensures ResetStrippedFilter(users, guess, Some(pw), hash).users[0].password == hash(pw)
  {
    forall j | 0 <= j < |users| ensures !LiveToken(users[j], guess, now) {
      assert users[j].resetToken.None?;
    }
  }

  /** The user collection, written field by field as the handlers do. */
  class Router {
    var users: seq<User>

    constructor (users: seq<User>)
      ensures this.users == users
    {
      this.users := users;
    }

    method ForgotPassword(email: Option<string>, now: int, resetToken: string, mailOk: bool) returns (code: int)
      modifies this
      ensures Reply(code, users) == Forgot(old(users), email, now, resetToken, mailOk)
    {
      if email.None? {
        return 400;
      }
      var resetTokenExpiry := now + TokenLifetime;
      var i := FirstIndex(users, HasEmail(email.value));
      if i == -1 {
        return 404;
      }
      var user := users[i];
      user := user.(resetToken := Some(resetToken));
      user := user.(resetTokenExpiry := Some(resetTokenExpiry));
      users := users[i := user];
      code := if mailOk then 200 else 500;
    }

    method ResetPassword(resetToken: string, newPassword: Option<string>, now: int, hash: string -> string)
      returns (code: int)
      modifies this
      ensures Reply(code, users) == Reset(old(users), resetToken, newPassword, now, hash)
    {
      if newPassword.None? {
        return 400;
      }
      var i := FirstIndex(users, HoldsLiveToken(resetToken, now));
      if i == -1 {
        return 400;
      }
      var user := users[i];
      user := user.(password := hash(newPassword.value));
      user := user.(resetToken := None);
      user := user.(resetTokenExpiry := None);
      users := users[i := user];
      code := 200;
    }
  }
}
