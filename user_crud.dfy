/** Queries and updates on the `users` table: lookups by e-mail and id,
    paginated listing, creation, the listing ordered by e-mail, the premium
    flag update and the deletion of a user together with their sessions. */
module UserCrud {
  import opened Wrappers
  import opened Db
  import Ordering

  /** The public view of a user (`UserPublic`): no password hash. */
  datatype PublicUser = PublicUser(id: nat, email: string, isAdmin: bool, isPremium: Option<bool>)

  /** `get_user_by_email`: the first row with that address, or None. */
  function UserByEmail(users: seq<UserRow>, email: string): (r: Option<UserRow>)
    ensures r.Some? ==> r.value in users && r.value.email == email
    ensures r.None? ==> forall i :: 0 <= i < |users| ==> users[i].email != email
  {
    if users == [] then None
    else if users[0].email == email then Some(users[0])
    else UserByEmail(users[1..], email)
  }

  /** `get_user_by_id`: the first row with that id, or None. */
  function UserById(users: seq<UserRow>, userId: nat): (r: Option<UserRow>)
    ensures r.Some? ==> r.value in users && r.value.id == userId
    ensures r.None? ==> forall i :: 0 <= i < |users| ==> users[i].id != userId
  {
    match Ordering.FirstIndex(users, (u: UserRow) => u.id == userId)
    case None => None
    case Some(i) => Some(users[i])
  }

  /** `list_users` builds `UserPublic(id, email, is_admin)`, so the premium
      flag always takes the model's default, false. */
  function Listed(u: UserRow): PublicUser {
    PublicUser(u.id, u.email, u.isAdmin, Some(false))
  }

  /** `list_users`: rows in table order, `skip` dropped, at most `limit` kept. */
  function ListUsers(users: seq<UserRow>, skip: nat, limit: nat): (r: seq<PublicUser>)
    ensures |r| <= limit
    ensures skip >= |users| ==> r == []
    ensures skip < |users| ==> |r| == if |users| - skip < limit then |users| - skip else limit
    ensures forall i :: 0 <= i < |r| ==> skip + i < |users| && r[i] == Listed(users[skip + i])
  {
    Ordering.Page(Ordering.Map(users, Listed), skip, limit)
  }

  /** `create_user`: a new row with `is_admin` false and no premium flag.
      An address already present violates the unique index and changes nothing. */
  method CreateUser(db: Database, email: string, hashedPassword: string) returns (r: Result<UserRow, string>)
    requires db.Valid()
    modifies db
    ensures db.Valid()
    ensures db.sessions == old(db.sessions) && db.nextSessionId == old(db.nextSessionId)
    ensures UserByEmail(old(db.users), email).Some? ==>
      r.Err? && db.users == old(db.users) && db.nextUserId == old(db.nextUserId)
    ensures UserByEmail(old(db.users), email).None? ==>
      r == Ok(UserRow(old(db.nextUserId), email, hashedPassword, false, None)) &&
      db.users == old(db.users) + [r.value]
  {
    if UserByEmail(db.users, email).Some? {
      return Err("duplicate key value violates unique constraint");
    }
    var row := UserRow(db.nextUserId, email, hashedPassword, false, None);
    db.users := db.users + [row];
    db.nextUserId := db.nextUserId + 1;
    r := Ok(row);
  }

  /** Code-point order on strings: a proper prefix comes first. */
  predicate LexLe(a: string, b: string) {
    if a == [] then true
    else if b == [] then false
    else if a[0] != b[0] then a[0] < b[0]
    else LexLe(a[1..], b[1..])
  }

  lemma {:induction false} LexTotal(a: string, b: string)
    ensures LexLe(a, b) || LexLe(b, a)
  {
    if a != [] && b != [] && a[0] == b[0] {
      LexTotal(a[1..], b[1..]);
    }
  }

  lemma {:induction false} LexTransitive(a: string, b: string, c: string)
    requires LexLe(a, b) && LexLe(b, c)
    ensures LexLe(a, c)
  {
    if a != [] && b != [] && c != [] && a[0] == b[0] && b[0] == c[0] {
      LexTransitive(a[1..], b[1..], c[1..]);
    }
  }

  /** `ORDER BY email`. */
  predicate ByEmail(u: UserRow, v: UserRow) { LexLe(u.email, v.email) }

  lemma ByEmailIsTotalPreorder()
    ensures Ordering.TotalPreorder(ByEmail)
  {
    forall u: UserRow, v: UserRow ensures ByEmail(u, v) || ByEmail(v, u) {
      LexTotal(u.email, v.email);
    }
    forall u: UserRow, v: UserRow, w: UserRow | ByEmail(u, v) && ByEmail(v, w) ensures ByEmail(u, w) {
      LexTransitive(u.email, v.email, w.email);
    }
  }

  /** `get_all_users`: every row, ordered by e-mail. */
  function AllUsers(users: seq<UserRow>): (r: seq<UserRow>)
    ensures multiset(r) == multiset(users)
    ensures Ordering.SortedBy(r, ByEmail)
  {
    ByEmailIsTotalPreorder();
    Ordering.SortBySorted(users, ByEmail);
    Ordering.SortBy(users, ByEmail)
  }

  function WithPremium(u: UserRow, userId: nat, value: bool): UserRow {
    if u.id == userId then u.(isPremium := Some(value)) else u
  }

  /** `update_user_is_premium`: that user's flag is set; every other field,
      every other row and the order are unchanged. */
  method UpdateIsPremium(db: Database, userId: nat, value: bool)
    requires db.Valid()
    modifies db
    ensures db.Valid()
    ensures |db.users| == |old(db.users)|
    ensures forall i :: 0 <= i < |db.users| ==> db.users[i] == WithPremium(old(db.users)[i], userId, value)
    ensures db.sessions == old(db.sessions) && db.nextUserId == old(db.nextUserId)
    ensures db.nextSessionId == old(db.nextSessionId)
  {
    db.users := Ordering.Map(db.users, (u: UserRow) => WithPremium(u, userId, value));
  }

  /** After the update the user reads back with the new flag and nothing else changed. */
  lemma UpdateThenRead(users: seq<UserRow>, userId: nat, value: bool)
    ensures var updated := Ordering.Map(users, (u: UserRow) => WithPremium(u, userId, value));
      (UserById(users, userId).None? ==> UserById(updated, userId).None?) &&
      (UserById(users, userId).Some? ==>
        UserById(updated, userId) == Some(UserById(users, userId).value.(isPremium := Some(value))))
    ensures var updated := Ordering.Map(users, (u: UserRow) => WithPremium(u, userId, value));
      forall other :: other != userId ==> UserById(updated, other) == UserById(users, other)
  {
    UpdateThenReadRec(users, userId, value);
    forall other | other != userId {
      UpdateKeepsOther(users, userId, value, other);
    }
  }

  /** Every other user reads back exactly as before the update. */
  lemma UpdateKeepsOther(users: seq<UserRow>, userId: nat, value: bool, other: nat)
    requires other != userId
    ensures UserById(Ordering.Map(users, (u: UserRow) => WithPremium(u, userId, value)), other) == UserById(users, other)
  {
    var updated := Ordering.Map(users, (u: UserRow) => WithPremium(u, userId, value));
    var found := (u: UserRow) => u.id == other;
    match Ordering.FirstIndex(users, found) {
      case None =>
        assert forall j :: 0 <= j < |updated| ==> !found(updated[j]);
      case Some(i) =>
        Ordering.FirstIndexAt(updated, found, i);
        assert updated[i] == users[i];
    }
  }

  lemma {:induction false} UpdateThenReadRec(users: seq<UserRow>, userId: nat, value: bool)
    ensures var updated := Ordering.Map(users, (u: UserRow) => WithPremium(u, userId, value));
      UserById(updated, userId) ==
        match UserById(users, userId)
        case None => None
        case Some(u) => Some(u.(isPremium := Some(value)))
  {
    if users != [] {
      var f := (u: UserRow) => WithPremium(u, userId, value);
      UpdateThenReadRec(users[1..], userId, value);
      assert Ordering.Map(users, f)[1..] == Ordering.Map(users[1..], f);
    }
  }

  /** `delete_user_by_id`: first every session of the user, then the user. */
  method DeleteUser(db: Database, userId: nat)
    requires db.Valid()
    modifies db
    ensures db.Valid()
    ensures db.sessions == Ordering.Filter(old(db.sessions), (s: SessionRow) => s.userId != userId)
    ensures db.users == Ordering.Filter(old(db.users), (u: UserRow) => u.id != userId)
    ensures db.nextUserId == old(db.nextUserId) && db.nextSessionId == old(db.nextSessionId)
  {
    FilterKeepsSessionsValid(db.sessions, db.nextSessionId, (s: SessionRow) => s.userId != userId);
    db.sessions := Ordering.Filter(db.sessions, (s: SessionRow) => s.userId != userId);
    FilterKeepsUsersValid(db.users, db.nextUserId, (u: UserRow) => u.id != userId);
    db.users := Ordering.Filter(db.users, (u: UserRow) => u.id != userId);
  }

  /** The cascade leaves no session of the deleted user and keeps every other
      user's sessions exactly. */
  lemma {:induction false} CascadeKeepsOthers(sessions: seq<SessionRow>, userId: nat, other: nat)
    requires other != userId
    ensures var kept := Ordering.Filter(sessions, (s: SessionRow) => s.userId != userId);
      Ordering.Filter(kept, (s: SessionRow) => s.userId == userId) == [] &&
      Ordering.Filter(kept, (s: SessionRow) => s.userId == other) ==
        Ordering.Filter(sessions, (s: SessionRow) => s.userId == other)
  {
    if sessions != [] {
      CascadeKeepsOthers(sessions[1..], userId, other);
    }
  }
}
