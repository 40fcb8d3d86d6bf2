/** The FreshSkinCoach administrator screen that lists users and switches
    their premium flag. */
module AllUsersScreen {
  import opened Wrappers
  import opened ClientApi
  import Ordering

  datatype AdminUser = AdminUser(id: string, email: string, isAdmin: bool, isPremium: bool)

  /** The list after a successful toggle: users with that id get the new flag,
      nothing else changes and the order is kept. */
  function SetPremium(users: seq<AdminUser>, userId: string, value: bool): (r: seq<AdminUser>)
    ensures |r| == |users|
    ensures forall i :: 0 <= i < |users| && users[i].id == userId ==> r[i] == users[i].(isPremium := value)
    ensures forall i :: 0 <= i < |users| && users[i].id != userId ==> r[i] == users[i]
  {
    Ordering.Map(users, (x: AdminUser) => if x.id == userId then x.(isPremium := value) else x)
  }

  /** Setting the flag twice to the same value is the same as setting it once. */
  lemma SetPremiumIdempotent(users: seq<AdminUser>, userId: string, value: bool)
    ensures SetPremium(SetPremium(users, userId, value), userId, value) == SetPremium(users, userId, value)
  {
  }

  class Screen {
    var users: seq<AdminUser>
    var loading: bool
    var events: seq<Event>
    var alerts: seq<string>

    constructor ()
      ensures users == [] && loading && events == [] && alerts == []
    {
      users := [];
      loading := true;
      events := [];
      alerts := [];
    }

    /** `fetchUsers`: replaces the list on success; `loading` ends false either way. */
    method FetchUsers(reply: Reply<seq<AdminUser>>)
      modifies this
      ensures !loading && events == old(events) + [Http(GetAdminUsers)]
      ensures reply.Answered? ==> users == reply.body && alerts == old(alerts)
      ensures reply.Failed? ==>
        users == old(users) && alerts == old(alerts) + ["Impossible de charger la liste des utilisateurs"]
    {
      events := events + [Http(GetAdminUsers)];
      if reply.Answered? {
        users := reply.body;
      } else {
        alerts := alerts + ["Impossible de charger la liste des utilisateurs"];
      }
      loading := false;
    }

    /** `togglePremium`: posts `make_premium = value` for the user, then updates
        that user in place; a failure leaves the list unchanged. */
    method TogglePremium(userId: string, value: bool, reply: Reply<()>)
      modifies this`users, this`events, this`alerts
      ensures events == old(events) + [Http(PostPremium(userId, value))]
      ensures reply.Answered? ==> users == SetPremium(old(users), userId, value) && alerts == old(alerts)
      ensures reply.Failed? ==>
        users == old(users) && alerts == old(alerts) + ["Impossible de modifier le statut"]
    {
      events := events + [Http(PostPremium(userId, value))];
      if reply.Answered? {
        users := SetPremium(users, userId, value);
      } else {
        alerts := alerts + ["Impossible de modifier le statut"];
      }
    }
  }
}
