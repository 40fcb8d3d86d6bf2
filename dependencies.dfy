/** The premium guard placed on the unlimited analysis route. */
module Dependencies {
  import opened Wrappers
  import opened UserCrud
  import opened AuthRouter

  const PREMIUM_ONLY: HttpError := HttpError(403, "Acc\U{e8}s r\U{e9}serv\U{e9} aux utilisateurs Premium")

  /** `subscription_required`: the current user's 401/404 first; then only a
      user whose premium flag is set passes, unchanged; a missing or null
      flag counts as not premium. */
  function SubscriptionRequired(current: Result<PublicUser, HttpError>): (r: Result<PublicUser, HttpError>)
    ensures current.Err? ==> r == current
    ensures current.Ok? ==> (r.Ok? <==> current.value.isPremium == Some(true))
    ensures r.Ok? ==> r == current
    ensures current.Ok? && current.value.isPremium != Some(true) ==> r == Err(PREMIUM_ONLY)
  {
    if current.Err? then current
    else if current.value.isPremium != Some(true) then Err(PREMIUM_ONLY)
    else current
  }
}
