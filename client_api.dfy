/** What the mobile clients exchange with the backend and with the device's
    token store. Every backend answer is an input of the model; every
    request and every token-store write is recorded, in order, as an `Event`. */
module ClientApi {
  import opened Wrappers
  import opened Analysis

  /** Why an axios call failed: an HTTP error status, or no response at all. */
  datatype ApiError = HttpStatus(status: int) | NoResponse

  /** The backend's answer to one request. */
  datatype Reply<T> = Answered(body: T) | Failed(error: ApiError)

  datatype Platform = Apple | Google

  function PlatformName(p: Platform): string {
    match p
    case Apple => "apple"
    case Google => "google"
  }

  /** The multipart form built by the camera screen, passed through untouched. */
  datatype Form = Form(file: string)

  /** An analysis as the backend returns it (`SkinAnalysisResponse`). */
  datatype Session = Session(
    sessionId: int,
    imageUrl: string,
    annotatedImageUrl: string,
    scores: seq<ScoreEntry>,
    timestamp: string,
    annotations: seq<Annotation>)

  datatype Request =
    | PostLogin(username: string, password: string)  // form-encoded body of /auth/login
    | GetMe                                          // GET /auth/me
    | GetSubscriptionStatus                          // GET /subscription/status
    | GetHistory(limit: Option<int>)                 // GET /skin/history
    | PostAnalyze(form: Form)                        // POST /skin/analyze
    | PostAnalyzePremium(form: Form)                 // POST /skin/analyze-premium
    | PostValidate(receipt: string, platform: Platform)  // POST /subscription/validate
    | DeleteHistory(sessionId: int)                  // DELETE /skin/history/{id}
    | GetAdminUsers                                  // GET /admin/users
    | PostPremium(userId: string, makePremium: bool) // POST /admin/users/{id}/premium
    | PostInterpret(scores: seq<ScoreEntry>)         // POST /interpret/

  /** One observable effect of a client: a request sent, or a write to the
      `access_token` entry of the device's storage. */
  datatype Event = Http(request: Request) | StoreToken(token: string) | RemoveToken

  /** The first index of `e` in a trace, if any. */
  function IndexOf(events: seq<Event>, e: Event): (r: Option<nat>)
    ensures r.Some? ==> r.value < |events| && events[r.value] == e
    ensures r.Some? ==> forall j :: 0 <= j < r.value ==> events[j] != e
    ensures r.None? ==> e !in events
  {
    if events == [] then None
    else if events[0] == e then Some(0)
    else match IndexOf(events[1..], e)
      case None => None
      case Some(k) => Some(k + 1)
  }
}
