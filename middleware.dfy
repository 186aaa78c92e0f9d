/**
 * The request guard that runs before every matched page (src/middleware.ts):
 * public pages pass, a visitor without a session is sent to the sign-in page
 * from any page outside `/auth`, a signed-in visitor is sent from the `/auth`
 * pages to the agent page, and any failure of the session lookup lets the
 * request through. Which paths the guard is matched on is not modelled.
 */
module Middleware {
  import opened Strings

  /** The pages open to everyone. */
  const PublicRoutes: seq<string> := ["/", "/privacy", "/features"]

  /** What the session lookup gave: a session or none, or an exception from either lookup call. */
  datatype Lookup = HasSession | NoSession | LookupThrew

  /** The guard's answer: let the request go on, or redirect it. */
  datatype Decision = Next | RedirectToSignIn(redirectedFrom: string) | RedirectToAgent

  /** `pathname.startsWith('/auth')`: a plain prefix test, so `/authors` counts too. */
  predicate IsAuthPath(path: string)
  {
    StartsWith(path, "/auth")
  }

  function Guard(path: string, lookup: Lookup): (d: Decision)
    ensures lookup == LookupThrew || path in PublicRoutes ==> d == Next
    ensures d.RedirectToSignIn? <==> lookup == NoSession && path !in PublicRoutes && !IsAuthPath(path)
    ensures d.RedirectToSignIn? ==> d.redirectedFrom == path
    ensures d == RedirectToAgent <==> lookup == HasSession && path !in PublicRoutes && IsAuthPath(path)
  {
    if lookup == LookupThrew then Next
    else if path in PublicRoutes then Next
    else if lookup == NoSession && !IsAuthPath(path) then RedirectToSignIn(path)
    else if lookup == HasSession && IsAuthPath(path) then RedirectToAgent
    else Next
  }

  /** The path a redirect leads to. */
  function Target(d: Decision): (path: string)
    requires d != Next
    ensures d.RedirectToSignIn? ==> path == "/auth/signin"
    ensures d == RedirectToAgent ==> path == "/agent"
  {
    if d.RedirectToSignIn? then "/auth/signin" else "/agent"
  }

  /**
   * Redirects settle: following a redirect with the same session state lands
   * on a page the guard lets through, so the guard never loops.
   */
  lemma {:induction false} RedirectsSettle(path: string, lookup: Lookup)
    requires Guard(path, lookup) != Next
    ensures Guard(Target(Guard(path, lookup)), lookup) == Next
  {
    var d := Guard(path, lookup);
    if d.RedirectToSignIn? {
      assert IsAuthPath("/auth/signin") by { assert "/auth/signin"[..5] == "/auth"; }
    } else {
      assert !IsAuthPath("/agent") by { assert "/agent"[..5][2] != "/auth"[2]; }
    }
  }

  /** The prefix test also matches `/authors`: a signed-in visitor is sent away from it and a signed-out one is let through. */
  lemma AuthorsCountsAsAuthPage()
    ensures Guard("/authors", HasSession) == RedirectToAgent
    ensures Guard("/authors", NoSession) == Next
  {
    assert "/authors"[..5] == "/auth";
  }
}
