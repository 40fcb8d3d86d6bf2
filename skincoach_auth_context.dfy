/** The session controller of the earlier SkinCoach app: the same sign-in
    sequence as FreshSkinCoach, but the user comes from
    `/subscription/status` and carries an expiry date instead of a flag. */
module SkinCoachAuthContext {
  import opened Wrappers
  import opened ClientApi

  /** The user record returned by `/subscription/status`. */
  datatype User = User(id: string, email: string, isAdmin: bool, subscriptionExpiry: Option<string>)

  datatype LoginBody = LoginBody(accessToken: string)

  class AuthProvider {
    var token: Option<string>
    var user: Option<User>
    var events: seq<Event>

    /** A signed-in user always has a stored token. */
    ghost predicate Valid()
      reads this
    {
      user.Some? ==> token.Some?
    }

    constructor (stored: Option<string>)
      ensures Valid()
      ensures token == stored && user == None && events == []
    {
      token := stored;
      user := None;
      events := [];
    }

    /** Posts `username = email` and `password` form-encoded, stores the token,
        then fetches the subscription status, which becomes the user. A failure
        is re-thrown with the user unchanged; the token stays stored when only
        the status fetch failed. */
    method SignIn(email: string, password: string, login: Reply<LoginBody>, status: Reply<User>)
      returns (r: Outcome<ApiError>)
      requires Valid()
      modifies this
      ensures Valid()
      ensures login.Failed? ==>
        r == Fail(login.error) && token == old(token) && user == old(user) &&
        events == old(events) + [Http(PostLogin(email, password))]
      ensures login.Answered? ==>
        token == Some(login.body.accessToken) &&
        events == old(events) + [Http(PostLogin(email, password)), StoreToken(login.body.accessToken),
                                 Http(GetSubscriptionStatus)]
      ensures login.Answered? && status.Answered? ==> r == Pass && user == Some(status.body)
      ensures login.Answered? && status.Failed? ==> r == Fail(status.error) && user == old(user)
    {
      events := events + [Http(PostLogin(email, password))];
      if login.Failed? {
        return Fail(login.error);
      }
      token := Some(login.body.accessToken);
      events := events + [StoreToken(login.body.accessToken), Http(GetSubscriptionStatus)];
      if status.Failed? {
        return Fail(status.error);
      }
      user := Some(status.body);
      r := Pass;
    }

    /** Removes the stored token and forgets the user; a second call changes nothing more. */
    method SignOut()
      modifies this
      ensures Valid()
      ensures token == None && user == None && events == old(events) + [RemoveToken]
      ensures old(token) == None && old(user) == None ==> token == old(token) && user == old(user)
    {
      events := events + [RemoveToken];
      token := None;
      user := None;
    }
  }
}
