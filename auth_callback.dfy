/**
 * The sign-in callback (src/app/auth/callback/route.ts): the identity
 * provider's error is reported back to the sign-in page, a missing code sends
 * the visitor to sign in again, and a code is exchanged for a session once,
 * after which the visitor lands on the dashboard. The query values are given
 * already decoded, and the `error` value of a redirect is the text the sign-in
 * page reads back; the percent-encoding in between is not modelled.
 */
module AuthCallback {
  import opened Common

  /** The callback URL's query values (`null` when a parameter is absent). */
  datatype Query = Query(code: Option<string>, error: Option<string>, errorDescription: Option<string>)

  /** Where the visitor is sent. `SignIn(None)` is the bare `/auth/signin`. */
  datatype Redirect = SignIn(error: Option<string>) | Dashboard

  /** How the session exchange ended: it returned (its result is not inspected) or it threw. */
  datatype Exchange = Returned | Threw

  /** The handler's effect: the codes handed to the exchange, in call order, and the redirect. */
  datatype Result = Result(exchanged: seq<string>, redirect: Redirect)

  function Callback(q: Query, exchange: Exchange): (r: Result)
    ensures Truthy(q.error) || Truthy(q.errorDescription) ==>
      r == Result([], SignIn(Some(OrElse(q.errorDescription, OrElse(q.error, "Unknown error")))))
    ensures !Truthy(q.error) && !Truthy(q.errorDescription) && !Truthy(q.code) ==> r == Result([], SignIn(None))
    ensures !Truthy(q.error) && !Truthy(q.errorDescription) && Truthy(q.code) ==>
      && r.exchanged == [q.code.value]
      && r.redirect == (if exchange == Returned then Dashboard else SignIn(Some("Authentication failed")))
  {
    if Truthy(q.error) || Truthy(q.errorDescription) then
      Result([], SignIn(Some(OrElse(q.errorDescription, OrElse(q.error, "Unknown error")))))
    else if !Truthy(q.code) then
      Result([], SignIn(None))
    else if exchange == Returned then
      Result([q.code.value], Dashboard)
    else
      Result([q.code.value], SignIn(Some("Authentication failed")))
  }

  /**
   * The visitor reaches the dashboard only after exactly one exchange of the
   * query's own code, and only when the provider reported no error.
   */
  lemma {:induction false} DashboardOnlyAfterExchange(q: Query, exchange: Exchange)
    requires Callback(q, exchange).redirect == Dashboard
    ensures Callback(q, exchange).exchanged == [q.code.value]
    ensures !Truthy(q.error) && !Truthy(q.errorDescription) && exchange == Returned
  {
  }

  /**
   * The `'Unknown error'` fallback is never shown: the error branch is taken
   * only when one of the two values is non-empty, and the shown text is the
   * description when it is non-empty and the error otherwise.
   */
  lemma {:induction false} ReportedErrorIsProviders(q: Query, exchange: Exchange)
    requires Truthy(q.error) || Truthy(q.errorDescription)
    ensures Callback(q, exchange) ==
      Result([], SignIn(Some(if Truthy(q.errorDescription) then q.errorDescription.value else q.error.value)))
    ensures Callback(q, exchange).redirect.error.value != ""
  {
  }
}
