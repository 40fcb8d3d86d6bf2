/** The FreshSkinCoach history screen: the user's analyses, deletion after
    confirmation, and the non-zero scores shown on each card. */
module HistoryScreen {
  import opened Wrappers
  import opened Analysis
  import opened ClientApi
  import Ordering

  /** The list after a successful delete: every session with that id removed,
      the others in their order. */
  function WithoutSession(sessions: seq<Session>, sessionId: int): (r: seq<Session>)
    ensures forall i :: 0 <= i < |r| ==> r[i].sessionId != sessionId && r[i] in sessions
    ensures forall i :: 0 <= i < |sessions| && sessions[i].sessionId != sessionId ==> sessions[i] in r
    ensures |r| == |sessions| - Ordering.CountWhere(sessions, (s: Session) => s.sessionId == sessionId)
  {
    var keep := (s: Session) => s.sessionId != sessionId;
    Ordering.FilterLength(sessions, keep);
    ComplementCount(sessions, keep, (s: Session) => s.sessionId == sessionId);
    Ordering.Filter(sessions, keep)
  }

  lemma {:induction false} ComplementCount<T>(s: seq<T>, p: T -> bool, q: T -> bool)
    requires forall x :: p(x) <==> !q(x)
    ensures Ordering.CountWhere(s, p) == |s| - Ordering.CountWhere(s, q)
  {
    if s != [] { ComplementCount(s[1..], p, q); }
  }

  /** Deleting an id that no session carries leaves the list as it is. */
  lemma WithoutAbsentSession(sessions: seq<Session>, sessionId: int)
    requires forall i :: 0 <= i < |sessions| ==> sessions[i].sessionId != sessionId
    ensures WithoutSession(sessions, sessionId) == sessions
  {
    Ordering.FilterAll(sessions, (s: Session) => s.sessionId != sessionId);
  }

  /** Deleting distributes over the list's parts, so the kept sessions stay in their order. */
  lemma WithoutSessionKeepsOrder(front: seq<Session>, back: seq<Session>, sessionId: int)
    ensures WithoutSession(front + back, sessionId) == WithoutSession(front, sessionId) + WithoutSession(back, sessionId)
  {
    Ordering.FilterAppend(front, back, (s: Session) => s.sessionId != sessionId);
  }

  /** `keyScores`: the score entries above zero, in their original order. */
  function KeyScores(scores: seq<ScoreEntry>): (r: seq<ScoreEntry>)
    ensures forall i :: 0 <= i < |r| ==> r[i].value > 0.0 && r[i] in scores
    ensures forall i :: 0 <= i < |scores| && scores[i].value > 0.0 ==> scores[i] in r
  {
    Ordering.Filter(scores, (e: ScoreEntry) => e.value > 0.0)
  }

  /** The kept scores stay in their original order. */
  lemma KeyScoresKeepsOrder(front: seq<ScoreEntry>, back: seq<ScoreEntry>)
    ensures KeyScores(front + back) == KeyScores(front) + KeyScores(back)
  {
    Ordering.FilterAppend(front, back, (e: ScoreEntry) => e.value > 0.0);
  }

  /** The buttons of the confirmation dialog. */
  datatype Choice = Cancel | Yes

  class Screen {
    var sessions: seq<Session>
    var events: seq<Event>
    var alerts: seq<string>

    constructor ()
      ensures sessions == [] && events == [] && alerts == []
    {
      sessions := [];
      events := [];
      alerts := [];
    }

    /** The mount effect: the fetched list replaces the current one; a failed
        fetch is an unhandled rejection and changes nothing. */
    method Load(reply: Reply<seq<Session>>)
      modifies this`sessions, this`events
      ensures events == old(events) + [Http(GetHistory(None))]
      ensures sessions == if reply.Answered? then reply.body else old(sessions)
    {
      events := events + [Http(GetHistory(None))];
      if reply.Answered? {
        sessions := reply.body;
      }
    }

    /** `handleDelete`: nothing is sent unless the user picks "Oui"; a failed
        delete leaves the list unchanged and shows an alert. */
    method HandleDelete(sessionId: int, choice: Choice, reply: Reply<()>)
      modifies this
      ensures choice == Cancel ==> sessions == old(sessions) && events == old(events) && alerts == old(alerts)
      ensures choice == Yes ==> events == old(events) + [Http(DeleteHistory(sessionId))]
      ensures choice == Yes && reply.Answered? ==>
        sessions == WithoutSession(old(sessions), sessionId) && alerts == old(alerts)
      ensures choice == Yes && reply.Failed? ==>
        sessions == old(sessions) && alerts == old(alerts) + ["La suppression a \U{e9}chou\U{e9}."]
    {
      if choice == Cancel {
        return;
      }
      events := events + [Http(DeleteHistory(sessionId))];
      if reply.Answered? {
        sessions := WithoutSession(sessions, sessionId);
      } else {
        alerts := alerts + ["La suppression a \U{e9}chou\U{e9}."];
      }
    }
  }
}
