/** Queries and updates on the `sessions` table: insertion, a user's
    history newest first with offset and limit, deletion, lookup, the
    administrator's full history and the per-label statistics. */
module SessionCrud {
  import opened Wrappers
  import opened Analysis
  import opened Db
  import Ordering

  /** The labels counted by the statistics, in their output order. */
  const LABELS: seq<string> := [
    "Acne", "Dark-Circle", "Dry-Skin", "EyeBags", "Normal-Skin",
    "Oily-Skin", "Pores", "Spots", "Wrinkles"
  ]

  /** `ORDER BY timestamp DESC`. */
  predicate NewerFirst(a: SessionRow, b: SessionRow) { a.timestamp >= b.timestamp }

  lemma NewerFirstIsTotal()
    ensures Ordering.TotalPreorder(NewerFirst)
  {
  }

  /** `create_session`: one new row with the given fields, the next id and
      the current time; nothing else changes. */
  method CreateSession(db: Database, userId: nat, imageUrl: string, annotatedImageUrl: string,
                       scores: seq<ScoreEntry>, annotations: seq<Annotation>, now: int)
    returns (row: SessionRow)
    requires db.Valid()
    modifies db
    ensures db.Valid()
    ensures row == SessionRow(old(db.nextSessionId), userId, imageUrl, annotatedImageUrl, scores, annotations, now)
    ensures db.sessions == old(db.sessions) + [row]
    ensures forall i :: 0 <= i < |old(db.sessions)| ==> old(db.sessions)[i].id != row.id
    ensures db.users == old(db.users) && db.nextUserId == old(db.nextUserId)
  {
    row := SessionRow(db.nextSessionId, userId, imageUrl, annotatedImageUrl, scores, annotations, now);
    db.sessions := db.sessions + [row];
    db.nextSessionId := db.nextSessionId + 1;
  }

  function OwnSessions(sessions: seq<SessionRow>, userId: nat): (r: seq<SessionRow>)
    ensures forall i :: 0 <= i < |r| ==> r[i].userId == userId && r[i] in sessions
    ensures forall i :: 0 <= i < |sessions| && sessions[i].userId == userId ==> sessions[i] in r
  {
    Ordering.Filter(sessions, (s: SessionRow) => s.userId == userId)
  }

  /** `get_sessions_for_user`: the user's sessions only, newest first, after
      skipping `skip` of them and at most `limit` long. */
  function SessionsForUser(sessions: seq<SessionRow>, userId: nat, skip: nat, limit: nat): (r: seq<SessionRow>)
    ensures |r| <= limit
    ensures var own := |OwnSessions(sessions, userId)|;
      |r| == if skip >= own then 0 else if own - skip < limit then own - skip else limit
    ensures forall i :: 0 <= i < |r| ==> r[i].userId == userId && r[i] in sessions
    ensures Ordering.SortedBy(r, NewerFirst)
  {
    var own := OwnSessions(sessions, userId);
    var sorted := Ordering.SortBy(own, NewerFirst);
    NewerFirstIsTotal();
    Ordering.SortBySorted(own, NewerFirst);
    Ordering.PageSorted(sorted, skip, limit, NewerFirst);
    forall i | 0 <= i < |sorted| ensures sorted[i] in own {
      assert sorted[i] in multiset(own);
    }
    Ordering.Page(sorted, skip, limit)
  }

  /** Reading the history page by page gives the same sessions as one
      larger page. */
  lemma HistoryPagesConcatenate(sessions: seq<SessionRow>, userId: nat, skip: nat, a: nat, b: nat)
    ensures SessionsForUser(sessions, userId, skip, a) + SessionsForUser(sessions, userId, skip + a, b)
      == SessionsForUser(sessions, userId, skip, a + b)
  {
    Ordering.PageSplit(Ordering.SortBy(OwnSessions(sessions, userId), NewerFirst), skip, a, b);
  }

  /** A first page at least as large as the user's history holds all of it. */
  lemma HistoryComplete(sessions: seq<SessionRow>, userId: nat, limit: nat)
    requires limit >= |OwnSessions(sessions, userId)|
    ensures multiset(SessionsForUser(sessions, userId, 0, limit)) == multiset(OwnSessions(sessions, userId))
  {
    var own := OwnSessions(sessions, userId);
    Ordering.PageAll(Ordering.SortBy(own, NewerFirst), limit);
  }

  /** `get_session_by_id`: the row with that id, or None. */
  function SessionById(sessions: seq<SessionRow>, sessionId: nat): (r: Option<SessionRow>)
    ensures r.Some? ==> r.value in sessions && r.value.id == sessionId
    ensures r.None? ==> forall i :: 0 <= i < |sessions| ==> sessions[i].id != sessionId
  {
    if sessions == [] then None
    else if sessions[0].id == sessionId then Some(sessions[0])
    else SessionById(sessions[1..], sessionId)
  }

  /** `delete_session`: every row with that id goes, the others stay in order. */
  method DeleteSession(db: Database, sessionId: nat)
    requires db.Valid()
    modifies db
    ensures db.Valid()
    ensures db.sessions == Ordering.Filter(old(db.sessions), (s: SessionRow) => s.id != sessionId)
    ensures db.users == old(db.users) && db.nextUserId == old(db.nextUserId)
    ensures db.nextSessionId == old(db.nextSessionId)
  {
    var kept := Ordering.Filter(db.sessions, (s: SessionRow) => s.id != sessionId);
    FilterKeepsSessionsValid(db.sessions, db.nextSessionId, (s: SessionRow) => s.id != sessionId);
    db.sessions := kept;
  }

  /** After deleting an id, no row has it, and every other lookup is as before. */
  lemma {:induction false} DeleteThenLookup(sessions: seq<SessionRow>, sessionId: nat, other: nat)
    ensures SessionById(Ordering.Filter(sessions, (s: SessionRow) => s.id != sessionId), sessionId).None?
    ensures other != sessionId ==>
      SessionById(Ordering.Filter(sessions, (s: SessionRow) => s.id != sessionId), other) == SessionById(sessions, other)
  {
    if sessions != [] {
      DeleteThenLookup(sessions[1..], sessionId, other);
    }
  }

  /** `get_all_sessions`: every row, newest first. */
  function AllSessions(sessions: seq<SessionRow>): (r: seq<SessionRow>)
    ensures multiset(r) == multiset(sessions)
    ensures Ordering.SortedBy(r, NewerFirst)
  {
    NewerFirstIsTotal();
    Ordering.SortBySorted(sessions, NewerFirst);
    Ordering.SortBy(sessions, NewerFirst)
  }

  /** `scores ->> label` cast to a number and compared with 0: a missing key is NULL and does not count. */
  predicate HasLabel(s: SessionRow, name: string) {
    match ScoreOf(s.scores, name)
    case None => false
    case Some(v) => v > 0.0
  }

  /** The number of the user's sessions that show a label. */
  function LabelCount(sessions: seq<SessionRow>, userId: nat, name: string): (n: nat)
    ensures n <= |OwnSessions(sessions, userId)|
  {
    Ordering.CountWhere(OwnSessions(sessions, userId), (s: SessionRow) => HasLabel(s, name))
  }

  /** The share of sessions in percent, 0.0 when there are none (before rounding). */
  function Percent(count: nat, total: nat): (p: real)
    ensures total == 0 ==> p == 0.0
    ensures count <= total ==> 0.0 <= p <= 100.0
  {
    if total > 0 then count as real / total as real * 100.0 else 0.0
  }

  /** `get_stats`: the user's total, then one entry per label in `LABELS`
      order, accumulated in a loop. */
  method GetStats(sessions: seq<SessionRow>, userId: nat) returns (stats: StatsResponse)
    ensures stats.totalSessions == |OwnSessions(sessions, userId)|
    ensures |stats.byLabel| == |LABELS|
    ensures forall k :: 0 <= k < |LABELS| ==>
      var count := LabelCount(sessions, userId, LABELS[k]);
      stats.byLabel[k] == LabelStat(LABELS[k], count, Percent(count, stats.totalSessions))
  {
    var total := |OwnSessions(sessions, userId)|;
    var byLabel: seq<LabelStat> := [];
    var k := 0;
    while k < |LABELS|
      invariant 0 <= k <= |LABELS|
      invariant |byLabel| == k
      invariant forall j :: 0 <= j < k ==>
        byLabel[j] == LabelStat(LABELS[j], LabelCount(sessions, userId, LABELS[j]),
                                Percent(LabelCount(sessions, userId, LABELS[j]), total))
    {
      var count := LabelCount(sessions, userId, LABELS[k]);
      byLabel := byLabel + [LabelStat(LABELS[k], count, Percent(count, total))];
      k := k + 1;
    }
    stats := StatsResponse(total, byLabel);
  }
}
