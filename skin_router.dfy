/** The `/skin` routes: image analysis (free and premium), the user's
    history, deleting one analysis, statistics, the administrator's global
    history and the trend's parameter check. The upload's bytes, the decoded
    image, the detector's answer, the random file names and the clock are
    inputs. */
module SkinRouter {
  import opened Wrappers
  import opened Text
  import opened Analysis
  import opened Db
  import opened UserCrud
  import opened SessionCrud
  import opened AuthRouter
  import opened Dependencies
  import Storage
  import SkinAnalyzer

  const NOT_AN_IMAGE: HttpError := HttpError(400, "Le fichier doit \U{ea}tre une image.")
  const SESSION_NOT_FOUND: HttpError := HttpError(404, "Session non trouv\U{e9}e")

  function AnalysisUnavailable(message: string): HttpError {
    HttpError(503, "Erreur du service d'analyse d'images : " + message)
  }

  /** The uploaded file as the route sees it. */
  datatype Upload = Upload(contentType: string, filename: string)

  /** The body of a successful analysis. */
  datatype AnalysisResponse = AnalysisResponse(
    sessionId: nat,
    imageUrl: string,
    annotatedImageUrl: string,
    scores: seq<ScoreEntry>,
    annotations: seq<Annotation>,
    timestamp: int)

  /** `analyze` (`premium` false) and `analyze_premium` (`premium` true):
      the login or subscription guard first, then the content type, then the
      file is saved, then the analysis; only a successful analysis records a
      session, and it records exactly one, owned by the caller. */
  method Analyze(db: Database, premium: bool, current: Result<PublicUser, HttpError>, upload: Upload,
                 uploadBase: string, image: Option<SkinAnalyzer.Image>,
                 inference: Result<Option<seq<SkinAnalyzer.Prediction>>, string>,
                 annotatedBase: string, now: int)
    returns (r: Result<AnalysisResponse, HttpError>, saved: Option<Storage.SavePlan>)
    requires db.Valid()
    modifies db
    ensures db.Valid()
    ensures db.users == old(db.users) && db.nextUserId == old(db.nextUserId)
    ensures var gate := if premium then SubscriptionRequired(current) else current;
      gate.Err? ==> r == Err(gate.error) && saved.None? && db.sessions == old(db.sessions)
    ensures var gate := if premium then SubscriptionRequired(current) else current;
      gate.Ok? && !StartsWith(upload.contentType, "image/") ==>
        r == Err(NOT_AN_IMAGE) && saved.None? && db.sessions == old(db.sessions)
    ensures var gate := if premium then SubscriptionRequired(current) else current;
      gate.Ok? && StartsWith(upload.contentType, "image/") ==>
        saved == Some(Storage.PlanSave(upload.filename, uploadBase, Storage.IMAGE_SAVE_DIR, Storage.IMAGE_URL_PREFIX))
    ensures saved.Some? && image.None? ==>
      r == Err(AnalysisUnavailable(SkinAnalyzer.UNREADABLE_IMAGE)) && db.sessions == old(db.sessions)
    ensures saved.Some? && image.Some? && inference.Err? ==>
      r == Err(AnalysisUnavailable(inference.error)) && db.sessions == old(db.sessions)
    ensures r.Ok? <==> saved.Some? && image.Some? && inference.Ok?
    ensures r.Ok? ==>
      current.Ok? && (premium ==> current.value.isPremium == Some(true)) &&
      (var preds := if inference.value.Some? then inference.value.value else [];
       |r.value.scores| == |SkinAnalyzer.ALL_CLASSES| &&
       (forall k :: 0 <= k < |SkinAnalyzer.ALL_CLASSES| ==>
         r.value.scores[k] == ScoreEntry(SkinAnalyzer.ALL_CLASSES[k], SkinAnalyzer.ScoreFor(preds, SkinAnalyzer.ALL_CLASSES[k]))) &&
       |r.value.annotations| == |preds| &&
       (forall i :: 0 <= i < |preds| ==> r.value.annotations[i] == SkinAnalyzer.Normalize(preds[i], image.value))) &&
      |db.sessions| == |old(db.sessions)| + 1 &&
      db.sessions == old(db.sessions) + [SessionRow(r.value.sessionId, current.value.id, r.value.imageUrl,
        r.value.annotatedImageUrl, r.value.scores, r.value.annotations, now)] &&
      r.value.sessionId == old(db.nextSessionId) && r.value.timestamp == now &&
      r.value.imageUrl == saved.value.imageUrl &&
      r.value.annotatedImageUrl ==
        Storage.IMAGE_URL_PREFIX + "/" + Storage.Basename(Storage.PathJoin(Storage.IMAGE_SAVE_DIR, annotatedBase + "_annotated.jpg"))
  {
    var gate := if premium then SubscriptionRequired(current) else current;
    if gate.Err? {
      return Err(gate.error), None;
    }
    if !StartsWith(upload.contentType, "image/") {
      return Err(NOT_AN_IMAGE), None;
    }
    var plan := Storage.PlanSave(upload.filename, uploadBase, Storage.IMAGE_SAVE_DIR, Storage.IMAGE_URL_PREFIX);
    saved := Some(plan);
    var analysis, _ := SkinAnalyzer.AnalyzeImage(image, inference, Storage.IMAGE_SAVE_DIR, annotatedBase);
    if analysis.Err? {
      return Err(AnalysisUnavailable(analysis.error)), saved;
    }
    var annotatedUrl := Storage.IMAGE_URL_PREFIX + "/" + Storage.Basename(analysis.value.annotatedPath);
    var row := CreateSession(db, gate.value.id, plan.imageUrl, annotatedUrl,
                             analysis.value.scores, analysis.value.annotations, now);
    r := Ok(AnalysisResponse(row.id, plan.imageUrl, annotatedUrl, row.scores, row.annotations, row.timestamp));
  }

  /** The annotated image's address is the annotated file's name under the
      image prefix, since a random hexadecimal name holds no slash. */
  lemma AnnotatedUrl(annotatedBase: string)
    requires '/' !in annotatedBase
    ensures Storage.IMAGE_URL_PREFIX + "/" + Storage.Basename(Storage.PathJoin(Storage.IMAGE_SAVE_DIR, annotatedBase + "_annotated.jpg"))
      == "/images/" + annotatedBase + "_annotated.jpg"
  {
    var name := annotatedBase + "_annotated.jpg";
    assert name[|name| - 1] == 'g';
    assert forall i :: 0 <= i < |name| ==> name[i] != '/' by {
      forall i | 0 <= i < |name| ensures name[i] != '/' {
        if i >= |annotatedBase| {
          assert name[i] == "_annotated.jpg"[i - |annotatedBase|];
        }
      }
    }
    Storage.BasenameOfJoin(Storage.IMAGE_SAVE_DIR, name);
  }

  /** `history`: login first; then `skip` (default 0) must be at least 0 and
      `limit` (default 20) between 1 and 100, both reported together; then a
      page of the caller's own analyses, newest first. */
  function History(current: Result<PublicUser, HttpError>, sessions: seq<SessionRow>,
                   skip: Option<int>, limit: Option<int>): (r: Result<seq<SessionRow>, HttpError>)
    ensures current.Err? ==> r == Err(current.error)
    ensures current.Ok? ==>
      var s := if skip.Some? then skip.value else 0;
      var l := if limit.Some? then limit.value else 20;
      (r.Ok? <==> 0 <= s && 1 <= l <= 100) &&
      (r.Err? ==>
        r.error.Unprocessable? &&
        ("skip" in r.error.params <==> s < 0) && ("limit" in r.error.params <==> !(1 <= l <= 100)))
    ensures r.Ok? ==>
      |r.value| <= 100 && Ordering.SortedBy(r.value, NewerFirst) &&
      forall i :: 0 <= i < |r.value| ==> r.value[i] in sessions && r.value[i].userId == current.value.id
    ensures r.Ok? ==>
      var s := if skip.Some? then skip.value else 0;
      var own := |OwnSessions(sessions, current.value.id)|;
      |r.value| == if s >= own then 0 else if own - s < (if limit.Some? then limit.value else 20) then own - s else (if limit.Some? then limit.value else 20)
  {
    if current.Err? then Err(current.error)
    else
      var s := if skip.Some? then skip.value else 0;
      var l := if limit.Some? then limit.value else 20;
      var bad := (if s < 0 then ["skip"] else []) + (if 1 <= l <= 100 then [] else ["limit"]);
      if bad != [] then Err(Unprocessable(bad))
      else Ok(SessionsForUser(sessions, current.value.id, s, l))
  }

  /** With the default page size, a user with at most twenty analyses sees all of them. */
  lemma DefaultHistoryComplete(user: PublicUser, sessions: seq<SessionRow>)
    requires |OwnSessions(sessions, user.id)| <= 20
    ensures History(Ok(user), sessions, None, None).Ok?
    ensures multiset(History(Ok(user), sessions, None, None).value) == multiset(OwnSessions(sessions, user.id))
  {
    HistoryComplete(sessions, user.id, 20);
  }

  /** The free quota check asks for one analysis more than the quota and
      compares the page's length with the quota: that decides exactly whether
      the caller already has that many analyses. */
  lemma QuotaProbe(user: PublicUser, sessions: seq<SessionRow>, quota: nat)
    requires quota < 100
    ensures History(Ok(user), sessions, None, Some(quota + 1)).Ok?
    ensures |History(Ok(user), sessions, None, Some(quota + 1)).value| >= quota <==>
      |OwnSessions(sessions, user.id)| >= quota
  {
  }

  /** `delete_history_item`: login first; an identifier below 1 is 422; an
      unknown analysis and another user's analysis are the same 404;
      otherwise that analysis alone is deleted. */
  method DeleteHistoryItem(db: Database, current: Result<PublicUser, HttpError>, sessionId: int)
    returns (r: Result<int, HttpError>)
    requires db.Valid()
    modifies db
    ensures db.Valid()
    ensures db.users == old(db.users)
    ensures r.Err? ==> db.sessions == old(db.sessions)
    ensures current.Err? ==> r == Err(current.error)
    ensures current.Ok? && sessionId < 1 ==> r == Err(Unprocessable(["session_id"]))
    ensures current.Ok? && sessionId >= 1 ==>
      (r == Err(SESSION_NOT_FOUND) <==>
        SessionById(old(db.sessions), sessionId).None? || SessionById(old(db.sessions), sessionId).value.userId != current.value.id)
    ensures r.Ok? ==>
      r.value == 204 && sessionId >= 1 && current.Ok? &&
      SessionById(old(db.sessions), sessionId).Some? && SessionById(old(db.sessions), sessionId).value.userId == current.value.id &&
      db.sessions == Ordering.Filter(old(db.sessions), (s: SessionRow) => s.id != sessionId) &&
      SessionById(db.sessions, sessionId).None?
  {
    if current.Err? {
      return Err(current.error);
    }
    if sessionId < 1 {
      return Err(Unprocessable(["session_id"]));
    }
    var found := SessionById(db.sessions, sessionId);
    if found.None? || found.value.userId != current.value.id {
      return Err(SESSION_NOT_FOUND);
    }
    DeleteSession(db, sessionId);
    DeleteThenLookup(old(db.sessions), sessionId, sessionId);
    r := Ok(204);
  }

  /** `stats`: login first, then the caller's label statistics. */
  method Stats(current: Result<PublicUser, HttpError>, sessions: seq<SessionRow>)
    returns (r: Result<StatsResponse, HttpError>)
    ensures current.Err? <==> r.Err?
    ensures current.Err? ==> r == Err(current.error)
    ensures r.Ok? ==>
      r.value.totalSessions == |OwnSessions(sessions, current.value.id)| &&
      |r.value.byLabel| == |LABELS| &&
      forall k :: 0 <= k < |LABELS| ==>
        var count := LabelCount(sessions, current.value.id, LABELS[k]);
        r.value.byLabel[k] == LabelStat(LABELS[k], count, Percent(count, r.value.totalSessions))
  {
    if current.Err? {
      return Err(current.error);
    }
    var s := GetStats(sessions, current.value.id);
    r := Ok(s);
  }

  /** `admin_history`: only an administrator sees every analysis, newest first. */
  function AdminHistory(current: Result<PublicUser, HttpError>, sessions: seq<SessionRow>): (r: Result<seq<SessionRow>, HttpError>)
    ensures r.Ok? <==> current.Ok? && current.value.isAdmin
    ensures current.Ok? && !current.value.isAdmin ==> r == Err(ADMIN_ONLY)
    ensures current.Err? ==> r == Err(current.error)
    ensures r.Ok? ==> multiset(r.value) == multiset(sessions) && Ordering.SortedBy(r.value, NewerFirst)
  {
    var admin := AdminRequired(current);
    if admin.Err? then Err(admin.error) else Ok(AllSessions(sessions))
  }

  /** The trend's grouping period. */
  datatype Period = Month | Week

  /** `trend`'s parameter check: login first; `period` defaults to "month"
      and must be "month" or "week". */
  function TrendPeriod(current: Result<PublicUser, HttpError>, period: Option<string>): (r: Result<Period, HttpError>)
    ensures current.Err? ==> r == Err(current.error)
    ensures current.Ok? && period.None? ==> r == Ok(Month)
    ensures current.Ok? && period.Some? ==>
      (r == Ok(Month) <==> period.value == "month") &&
      (r == Ok(Week) <==> period.value == "week") &&
      (r.Err? <==> period.value !in {"month", "week"})
    ensures r.Err? && current.Ok? ==> r.error == Unprocessable(["period"])
  {
    if current.Err? then Err(current.error)
    else
      var p := if period.Some? then period.value else "month";
      if p == "month" then Ok(Month)
      else if p == "week" then Ok(Week)
      else Err(Unprocessable(["period"]))
  }
}
