/**
 * The request middleware of the application: the onboarding redirect that
 * sets the `onboarded` cookie and cleans the URL, and the skip of the
 * landing page for onboarded visitors.
 */
module Middleware {
  import opened Common

  /** What the middleware reads: path, the `onboarded` query value and the `onboarded` cookie value. */
  datatype Request = Request(pathname: string, onboardedQuery: Option<string>, onboardedCookie: Option<string>)

  datatype Cookie = Cookie(name: string, value: string, path: string, maxAge: nat)

  /** A redirect goes to a path with no query, possibly setting a cookie. */
  datatype Response = Next | Redirect(location: string, setCookie: Option<Cookie>)

  /** One year, in seconds. */
  const OneYear: nat := 60 * 60 * 24 * 365

  const OnboardedCookie: Cookie := Cookie("onboarded", "true", "/", OneYear)

  /** The paths the middleware runs on. */
  predicate Matched(pathname: string) {
    pathname == "/" || pathname == "/dashboard"
  }

  /** middleware. */
  function Decide(req: Request): (r: Response)
    ensures r.Redirect? ==> r.location == "/dashboard"
    ensures r.Redirect? && r.setCookie.Some? ==> r.setCookie.value == OnboardedCookie
  {
    var onboarded := req.onboardedCookie == Some("true");
    if req.pathname == "/dashboard" && req.onboardedQuery == Some("1") then
      Redirect("/dashboard", Some(OnboardedCookie))
    else if req.pathname == "/" && onboarded then
      Redirect("/dashboard", None)
    else
      Next
  }

  /** What the server answers: the middleware on matched paths, pass-through elsewhere. */
  function Handle(req: Request): (r: Response)
    ensures !Matched(req.pathname) ==> r == Next
  {
    if Matched(req.pathname) then Decide(req) else Next
  }

  lemma OnboardingRedirect(req: Request)
    ensures Handle(req).Redirect? && Handle(req).setCookie.Some?
      <==> req.pathname == "/dashboard" && req.onboardedQuery == Some("1")
    ensures Handle(req).Redirect? && Handle(req).setCookie.Some? ==>
      Handle(req).setCookie.value == Cookie("onboarded", "true", "/", 31536000)
  {
  }

  /** The landing page is skipped exactly when the cookie is "true". */
  lemma LandingSkipped(req: Request)
    requires req.pathname == "/"
    ensures Handle(req) == Redirect("/dashboard", None) <==> req.onboardedCookie == Some("true")
    ensures Handle(req) == Next <==> req.onboardedCookie != Some("true")
  {
  }

  lemma DashboardWithoutFlagPasses(req: Request)
    requires req.pathname == "/dashboard" && req.onboardedQuery != Some("1")
    ensures Handle(req) == Next
  {
  }

  /** The browser follows a redirect: the new path, no query, and the cookie if one was set. */
  function Follow(req: Request, r: Response): Request
    requires r.Redirect?
  {
    Request(r.location, None, if r.setCookie.Some? then Some(r.setCookie.value.value) else req.onboardedCookie)
  }

  /** No redirect loop: following any redirect leads to a pass-through. */
  lemma NoRedirectLoop(req: Request)
    requires Handle(req).Redirect?
    ensures Handle(Follow(req, Handle(req))) == Next
  {
  }
}
