/** The two database tables, `users` and `sessions`, held in memory in
    insertion order, with the id sequences that number new rows. */
module Db {
  import opened Wrappers
  import opened Analysis
  import Ordering

  /** A `users` row. `is_premium` is a nullable column that new rows leave NULL. */
  datatype UserRow = UserRow(id: nat, email: string, hashedPassword: string, isAdmin: bool, isPremium: Option<bool>)

  /** A `sessions` row; `timestamp` is the creation time in any monotone unit. */
  datatype SessionRow = SessionRow(
    id: nat,
    userId: nat,
    imageUrl: string,
    annotatedImageUrl: string,
    scores: seq<ScoreEntry>,
    annotations: seq<Annotation>,
    timestamp: int)

  /** Primary keys are unique and below the next value of their sequence;
      e-mail addresses are unique. */
  predicate UsersValid(users: seq<UserRow>, nextId: nat) {
    (forall i :: 0 <= i < |users| ==> users[i].id < nextId) &&
    (forall i, j :: 0 <= i < j < |users| ==> users[i].id != users[j].id && users[i].email != users[j].email)
  }

  predicate SessionsValid(sessions: seq<SessionRow>, nextId: nat) {
    (forall i :: 0 <= i < |sessions| ==> sessions[i].id < nextId) &&
    (forall i, j :: 0 <= i < j < |sessions| ==> sessions[i].id != sessions[j].id)
  }

  /** Dropping rows keeps the keys unique. */
  lemma {:induction false} FilterKeepsSessionsValid(sessions: seq<SessionRow>, nextId: nat, keep: SessionRow -> bool)
    requires SessionsValid(sessions, nextId)
    ensures SessionsValid(Ordering.Filter(sessions, keep), nextId)
  {
    if sessions != [] {
      FilterKeepsSessionsValid(sessions[1..], nextId, keep);
      var rest := Ordering.Filter(sessions[1..], keep);
      forall i | 0 <= i < |rest| ensures rest[i].id != sessions[0].id {
        assert rest[i] in sessions[1..];
      }
    }
  }

  lemma {:induction false} FilterKeepsUsersValid(users: seq<UserRow>, nextId: nat, keep: UserRow -> bool)
    requires UsersValid(users, nextId)
    ensures UsersValid(Ordering.Filter(users, keep), nextId)
  {
    if users != [] {
      FilterKeepsUsersValid(users[1..], nextId, keep);
      var rest := Ordering.Filter(users[1..], keep);
      forall i | 0 <= i < |rest| ensures rest[i].id != users[0].id && rest[i].email != users[0].email {
        assert rest[i] in users[1..];
      }
    }
  }

  class Database {
    var users: seq<UserRow>
    var sessions: seq<SessionRow>
    var nextUserId: nat
    var nextSessionId: nat

    predicate Valid()
      reads this
    {
      UsersValid(users, nextUserId) && SessionsValid(sessions, nextSessionId)
    }

    /** An empty database whose sequences start at 1. */
    constructor ()
      ensures Valid()
      ensures users == [] && sessions == [] && nextUserId == 1 && nextSessionId == 1
    {
      users := [];
      sessions := [];
      nextUserId := 1;
      nextSessionId := 1;
    }
  }
}
