/** The guard around the signed-in pages (src/components/ProtectedRoute.tsx): what it
    renders and the navigation its effect asks for. */
module RouteGuard {
  import opened Wrappers
  import opened Types

  /** What the guard renders: the "Authentication Required" notice, or its children. */
  datatype Rendered<T> = AuthNotice | Children(content: T)

  /** The render decision: a visitor sees the notice and never the children; a signed-in
      user sees the children exactly as given. */
  function Guard<T>(isAuthenticated: bool, children: T): (r: Rendered<T>)
    ensures r.Children? <==> isAuthenticated
    ensures r.Children? ==> r.content == children
  {
    if !isAuthenticated then AuthNotice else Children(children)
  }

  /** The effect's request: the login view for a visitor, nothing for a signed-in user. */
  function RedirectEffect(isAuthenticated: bool): (r: Option<PageType>)
    ensures r.Some? <==> !isAuthenticated
    ensures r.Some? ==> r.value == Login
  {
    if !isAuthenticated then Some(Login) else None
  }

  /** The notice's "Go to Login" button. */
  const NoticeButtonTarget: PageType := Login

  /** The notice never shows for the same state in which the effect stays quiet, and the
      button asks for the page the effect asks for. */
  lemma NoticeAgreesWithEffect<T>(isAuthenticated: bool, children: T)
    ensures Guard(isAuthenticated, children) == AuthNotice <==> RedirectEffect(isAuthenticated) == Some(NoticeButtonTarget)
  {
  }
}
