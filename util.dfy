/** The authenticator: a check of an optional user record against supplied credentials. */
module Util {
  import opened Model

  /** The record belongs to the credentials: exact, case-sensitive equality of name and password. */
  predicate Authenticates(user: User, credentials: Credentials) {
    user.name == credentials.username && user.password == credentials.password
  }

  /**
   * `checkUserLoggedIn`: fails when no user was found, then when the name differs from the
   * supplied username, then when the password differs; otherwise returns the record unchanged.
   */
  function CheckUserLoggedIn(optUser: Option<User>, credentials: Credentials): (r: Outcome<User>)
    ensures r.Success? <==> optUser.Some? && Authenticates(optUser.value, credentials)
    ensures r.Success? ==> r.value == optUser.value
    ensures r.Failure? ==> r.error.Denied? && r.error.reason.username == credentials.username
    ensures optUser.None? ==> r.Failure? && r.error.reason.UserUnknown?
    ensures optUser.Some? && optUser.value.name != credentials.username ==>
              r.Failure? && r.error.reason.IncorrectUsername?
    ensures optUser.Some? && optUser.value.name == credentials.username
              && optUser.value.password != credentials.password ==>
              r.Failure? && r.error.reason.BadPassword?
  {
    if optUser.None? then
      Failure(Denied(UserUnknown(credentials.username)))
    else
      var user := optUser.value;
      if user.name != credentials.username then
        Failure(Denied(IncorrectUsername(credentials.username)))
      else if user.password != credentials.password then
        Failure(Denied(BadPassword(credentials.username)))
      else
        Success(user)
  }

  /** The failure message, read back, says which of the three checks rejected the login. */
  lemma FailureMessageNamesCheck(optUser: Option<User>, credentials: Credentials)
    requires CheckUserLoggedIn(optUser, credentials).Failure?
    ensures var m := CheckUserLoggedIn(optUser, credentials).error.reason.Message();
      (m == "User unknown: " + credentials.username <==> optUser.None?)
      && (m == "Incorrect username: " + credentials.username <==>
            optUser.Some? && optUser.value.name != credentials.username)
      && (m == "Bad password supplied for user: " + credentials.username <==>
            optUser.Some? && optUser.value.name == credentials.username)
  {
    var u := credentials.username;
    var e := CheckUserLoggedIn(optUser, credentials).error.reason;
    MessageIdentifiesFailure(e, UserUnknown(u));
    MessageIdentifiesFailure(e, IncorrectUsername(u));
    MessageIdentifiesFailure(e, BadPassword(u));
  }
}
