/** The session and entitlement controller of the FreshSkinCoach app
    (`AuthProvider`): it owns the stored bearer token and the in-memory
    user, signs in and out, gates analysis submissions on the free quota
    and refreshes the user after a subscription. */
module FreshAuthContext {
  import opened Wrappers
  import opened Text
  import opened ClientApi

  /** Analyses a non-premium user may run. */
  const FREE_ANALYSIS_LIMIT: nat := 3

  /** The user record returned by `/auth/me`. */
  datatype User = User(id: string, email: string, isAdmin: bool, isPremium: bool)

  /** The body of a successful `/auth/login`. */
  datatype LoginBody = LoginBody(accessToken: string)

  /** What the controller's operations throw. */
  datatype AuthError = NotSignedIn | FreeLimitReached | Api(cause: ApiError)

  /** The `Error` message a caller sees. */
  function Message(e: AuthError): string {
    match e
    case NotSignedIn => "Utilisateur non connect\U{e9}"
    case FreeLimitReached =>
      "Limite gratuite atteinte (" + NatToString(FREE_ANALYSIS_LIMIT) + " analyses). Passez Premium."
    case Api(_) => "Request failed"
  }

  /** The analyze endpoint a user is routed to. */
  function AnalyzeRequest(u: User, form: Form): (r: Request)
    ensures r.PostAnalyzePremium? <==> u.isPremium
    ensures r.PostAnalyze? <==> !u.isPremium
    ensures r.form == form
  {
    if u.isPremium then PostAnalyzePremium(form) else PostAnalyze(form)
  }

  class AuthProvider {
    /** The `access_token` entry of the device's storage. */
    var token: Option<string>
    /** The in-memory user, `null` when signed out. */
    var user: Option<User>
    /** Every request sent and every storage write, in order. */
    var events: seq<Event>

    /** A signed-in user always has a stored token. */
    ghost predicate Valid()
      reads this
    {
      user.Some? ==> token.Some?
    }

    /** The provider mounts with no user, whatever token a previous run left. */
    constructor (stored: Option<string>)
      ensures Valid()
      ensures token == stored && user == None && events == []
    {
      token := stored;
      user := None;
      events := [];
    }

    /** Posts the credentials, stores the token, then fetches `/auth/me`. */
    method SignIn(email: string, password: string, login: Reply<LoginBody>, me: Reply<User>)
      returns (r: Outcome<AuthError>)
      requires Valid()
      modifies this
      ensures Valid()
      ensures login.Failed? ==>
        r == Fail(Api(login.error)) && token == old(token) && user == old(user) &&
        events == old(events) + [Http(PostLogin(email, password))]
      ensures login.Answered? ==>
        token == Some(login.body.accessToken) &&
        events == old(events) + [Http(PostLogin(email, password)), StoreToken(login.body.accessToken), Http(GetMe)]
      ensures login.Answered? && me.Answered? ==> r == Pass && user == Some(me.body)
      ensures login.Answered? && me.Failed? ==> r == Fail(Api(me.error)) && user == old(user)
    {
      events := events + [Http(PostLogin(email, password))];
      if login.Failed? {
        return Fail(Api(login.error));
      }
      token := Some(login.body.accessToken);
      events := events + [StoreToken(login.body.accessToken)];
      events := events + [Http(GetMe)];
      if me.Failed? {
        return Fail(Api(me.error));
      }
      user := Some(me.body);
      r := Pass;
    }

    /** Removes the stored token and forgets the user; a second call changes nothing more. */
    method SignOut()
      modifies this
      ensures Valid()
      ensures token == None && user == None && events == old(events) + [RemoveToken]
      ensures old(token) == None && old(user) == None ==> token == old(token) && user == old(user)
    {
      events := events + [RemoveToken];
      token := None;
      user := None;
    }

    /** Submits a photo. A non-premium user first asks for `FREE_ANALYSIS_LIMIT + 1`
        history entries and is stopped when `FREE_ANALYSIS_LIMIT` or more come back;
        a premium user goes straight to the premium endpoint. The analyze
        response is returned as it is. */
    method AnalyzeSkin(form: Form, history: Reply<seq<Session>>, analyze: Reply<Session>)
      returns (r: Result<Session, AuthError>)
      modifies this`events
      ensures old(user).None? ==> r == Err(NotSignedIn) && events == old(events)
      ensures old(user).Some? && old(user).value.isPremium ==>
        events == old(events) + [Http(PostAnalyzePremium(form))] &&
        r == (if analyze.Answered? then Ok(analyze.body) else Err(Api(analyze.error)))
      ensures old(user).Some? && !old(user).value.isPremium && history.Failed? ==>
        events == old(events) + [Http(GetHistory(Some(FREE_ANALYSIS_LIMIT + 1)))] &&
        r == Err(Api(history.error))
      ensures old(user).Some? && !old(user).value.isPremium && history.Answered? &&
              |history.body| >= FREE_ANALYSIS_LIMIT ==>
        events == old(events) + [Http(GetHistory(Some(FREE_ANALYSIS_LIMIT + 1)))] &&
        r == Err(FreeLimitReached)
      ensures old(user).Some? && !old(user).value.isPremium && history.Answered? &&
              |history.body| < FREE_ANALYSIS_LIMIT ==>
        events == old(events) + [Http(GetHistory(Some(FREE_ANALYSIS_LIMIT + 1))), Http(PostAnalyze(form))] &&
        r == (if analyze.Answered? then Ok(analyze.body) else Err(Api(analyze.error)))
    {
      if user.None? {
        return Err(NotSignedIn);
      }
      var u := user.value;
      if !u.isPremium {
        events := events + [Http(GetHistory(Some(FREE_ANALYSIS_LIMIT + 1)))];
        if history.Failed? {
          return Err(Api(history.error));
        }
        if |history.body| >= FREE_ANALYSIS_LIMIT {
          return Err(FreeLimitReached);
        }
      }
      events := events + [Http(AnalyzeRequest(u, form))];
      if analyze.Failed? {
        return Err(Api(analyze.error));
      }
      r := Ok(analyze.body);
    }

    /** Validates a receipt and re-reads the user. The arguments are ignored:
        the request always carries the development receipt for Apple. */
    method Subscribe(receipt: string, platform: Platform, validate: Reply<()>, me: Reply<User>)
      returns (r: Outcome<AuthError>)
      requires Valid()
      modifies this`user, this`events
      ensures Valid()
      ensures old(user).None? ==> r == Fail(NotSignedIn) && user == old(user) && events == old(events)
      ensures old(user).Some? && validate.Failed? ==>
        r == Fail(Api(validate.error)) && user == old(user) &&
        events == old(events) + [Http(PostValidate("DEV_RECEIPT", Apple))]
      ensures old(user).Some? && validate.Answered? ==>
        events == old(events) + [Http(PostValidate("DEV_RECEIPT", Apple)), Http(GetMe)] &&
        (if me.Answered? then r == Pass && user == Some(me.body)
         else r == Fail(Api(me.error)) && user == old(user))
    {
      if user.None? {
        return Fail(NotSignedIn);
      }
      events := events + [Http(PostValidate("DEV_RECEIPT", Apple))];
      if validate.Failed? {
        return Fail(Api(validate.error));
      }
      events := events + [Http(GetMe)];
      if me.Failed? {
        return Fail(Api(me.error));
      }
      user := Some(me.body);
      r := Pass;
    }
  }

  /** A sign-in whose login succeeded stores the token strictly before it asks
      for `/auth/me`. */
  lemma {:induction false} TokenStoredBeforeMe(before: seq<Event>, email: string, password: string, t: string)
    requires StoreToken(t) !in before && Http(GetMe) !in before
    ensures var trace := before + [Http(PostLogin(email, password)), StoreToken(t), Http(GetMe)];
      IndexOf(trace, StoreToken(t)).Some? && IndexOf(trace, Http(GetMe)).Some? &&
      IndexOf(trace, StoreToken(t)).value < IndexOf(trace, Http(GetMe)).value
  {
    var trace := before + [Http(PostLogin(email, password)), StoreToken(t), Http(GetMe)];
    assert trace[|before| + 1] == StoreToken(t);
    assert trace[|before| + 2] == Http(GetMe);
    forall k | 0 <= k <= |before|
      ensures trace[k] != StoreToken(t) && trace[k] != Http(GetMe)
    {
      if k < |before| { assert trace[k] == before[k]; }
    }
  }
}
