/** The authentication routes and guards: the current user from a bearer
    token, the administrator guard, sign-up, login and account deletion.
    Token signing and password hashing are inputs. */
module AuthRouter {
  import opened Wrappers
  import opened Db
  import opened UserCrud
  import Ordering

  /** An `HTTPException`, or FastAPI's 422 listing the parameters that failed validation. */
  datatype HttpError = HttpError(status: int, detail: string) | Unprocessable(params: seq<string>)

  const NOT_AUTHENTICATED: HttpError := HttpError(401, "Not authenticated")
  const INVALID_TOKEN: HttpError := HttpError(401, "Token invalide")
  const USER_NOT_FOUND: HttpError := HttpError(404, "Utilisateur non trouv\U{e9}")
  const ADMIN_ONLY: HttpError := HttpError(403, "Acc\U{e8}s r\U{e9}serv\U{e9} \U{e0} l\U{2019}administrateur")
  const EMAIL_TAKEN: HttpError := HttpError(400, "Email d\U{e9}j\U{e0} utilis\U{e9}")
  const BAD_CREDENTIALS: HttpError := HttpError(401, "Identifiants invalides")

  /** What `decode_access_token` makes of a token: rejected (bad signature,
      expired), or its claims with the "sub" claim if present. */
  datatype Decoded = Rejected | Claims(sub: Option<string>)

  function Public(u: UserRow): PublicUser {
    PublicUser(u.id, u.email, u.isAdmin, u.isPremium)
  }

  /** `get_current_user`: no bearer token is 401, a token that does not
      decode or names no subject is 401, an unknown subject is 404. */
  function CurrentUser(token: Option<string>, decode: string -> Decoded, users: seq<UserRow>): (r: Result<PublicUser, HttpError>)
    ensures token.None? ==> r == Err(NOT_AUTHENTICATED)
    ensures token.Some? && (decode(token.value).Rejected? || decode(token.value).sub in {None, Some("")}) ==>
      r == Err(INVALID_TOKEN)
    ensures r == Err(USER_NOT_FOUND) <==>
      token.Some? && decode(token.value).Claims? && decode(token.value).sub.Some? &&
      decode(token.value).sub.value != "" && UserByEmail(users, decode(token.value).sub.value).None?
    ensures token.Some? && decode(token.value).Claims? && decode(token.value).sub.Some? &&
            decode(token.value).sub.value != "" && UserByEmail(users, decode(token.value).sub.value).Some? ==>
      r == Ok(Public(UserByEmail(users, decode(token.value).sub.value).value))
    ensures r.Ok? ==>
      token.Some? && decode(token.value) == Claims(Some(r.value.email)) &&
      exists i :: 0 <= i < |users| && Public(users[i]) == r.value
  {
    if token.None? then Err(NOT_AUTHENTICATED)
    else match decode(token.value)
      case Rejected => Err(INVALID_TOKEN)
      case Claims(sub) =>
        if sub.None? || sub.value == "" then Err(INVALID_TOKEN)
        else match UserByEmail(users, sub.value)
          case None => Err(USER_NOT_FOUND)
          case Some(u) => Ok(Public(u))
  }

  /** `admin_required`: the current user's errors first, then 403 for a non-administrator. */
  function AdminRequired(current: Result<PublicUser, HttpError>): (r: Result<PublicUser, HttpError>)
    ensures current.Err? ==> r == current
    ensures current.Ok? ==> (r.Ok? <==> current.value.isAdmin)
    ensures r.Ok? ==> r == current && r.value.isAdmin
    ensures current.Ok? && !current.value.isAdmin ==> r == Err(ADMIN_ONLY)
  {
    if current.Err? then current
    else if !current.value.isAdmin then Err(ADMIN_ONLY)
    else current
  }

  /** The login outcome: the token's subject and type. */
  datatype Token = Token(sub: string, tokenType: string)

  /** `login`: an unknown address and a wrong password give the same 401. */
  function Login(users: seq<UserRow>, username: string, password: string, verify: (string, string) -> bool)
    : (r: Result<Token, HttpError>)
    ensures r.Ok? <==> UserByEmail(users, username).Some? && verify(password, UserByEmail(users, username).value.hashedPassword)
    ensures r.Ok? ==> r.value == Token(username, "bearer")
    ensures r.Err? ==> r.error == BAD_CREDENTIALS
  {
    match UserByEmail(users, username)
    case None => Err(BAD_CREDENTIALS)
    case Some(u) =>
      if !verify(password, u.hashedPassword) then Err(BAD_CREDENTIALS)
      else Ok(Token(u.email, "bearer"))
  }

  /** A token issued by login, presented back, names the user who logged in. */
  lemma LoginThenCurrentUser(users: seq<UserRow>, username: string, password: string,
                             verify: (string, string) -> bool, token: string, decode: string -> Decoded)
    requires Login(users, username, password, verify).Ok?
    requires decode(token) == Claims(Some(Login(users, username, password, verify).value.sub))
    requires username != ""
    ensures CurrentUser(Some(token), decode, users) == Ok(Public(UserByEmail(users, username).value))
  {
  }

  /** `signup`: 400 when the address is taken, otherwise a new non-admin
      user, returned with the default premium flag. */
  method Signup(db: Database, email: string, password: string, hash: string -> string)
    returns (r: Result<PublicUser, HttpError>)
    requires db.Valid()
    modifies db
    ensures db.Valid()
    ensures db.sessions == old(db.sessions)
    ensures UserByEmail(old(db.users), email).Some? ==> r == Err(EMAIL_TAKEN) && db.users == old(db.users)
    ensures UserByEmail(old(db.users), email).None? ==>
      db.users == old(db.users) + [UserRow(old(db.nextUserId), email, hash(password), false, None)] &&
      r == Ok(PublicUser(old(db.nextUserId), email, false, Some(false)))
  {
    if UserByEmail(db.users, email).Some? {
      return Err(EMAIL_TAKEN);
    }
    var created := CreateUser(db, email, hash(password));
    r := Ok(PublicUser(created.value.id, created.value.email, created.value.isAdmin, Some(false)));
  }

  /** After sign-up the new user can log in with the same password. */
  lemma SignupThenLogin(users: seq<UserRow>, id: nat, email: string, password: string,
                        hash: string -> string, verify: (string, string) -> bool)
    requires UserByEmail(users, email).None?
    requires verify(password, hash(password))
    ensures Login(users + [UserRow(id, email, hash(password), false, None)], email, password, verify) == Ok(Token(email, "bearer"))
  {
    LookupAppended(users, UserRow(id, email, hash(password), false, None));
  }

  lemma {:induction false} LookupAppended(users: seq<UserRow>, u: UserRow)
    requires UserByEmail(users, u.email).None?
    ensures UserByEmail(users + [u], u.email) == Some(u)
  {
    if users != [] {
      assert (users + [u])[1..] == users[1..] + [u];
      LookupAppended(users[1..], u);
    } else {
      assert users + [u] == [u];
    }
  }

  /** `DELETE /me`: the current user's errors, or 204 after the cascade delete. */
  method DeleteCurrentUser(db: Database, current: Result<PublicUser, HttpError>) returns (r: Result<int, HttpError>)
    requires db.Valid()
    modifies db
    ensures db.Valid()
    ensures current.Err? ==> r == Err(current.error) && db.users == old(db.users) && db.sessions == old(db.sessions)
    ensures current.Ok? ==>
      r == Ok(204) &&
      db.users == Ordering.Filter(old(db.users), (u: UserRow) => u.id != current.value.id) &&
      db.sessions == Ordering.Filter(old(db.sessions), (s: SessionRow) => s.userId != current.value.id)
  {
    if current.Err? {
      return Err(current.error);
    }
    DeleteUser(db, current.value.id);
    r := Ok(204);
  }
}
