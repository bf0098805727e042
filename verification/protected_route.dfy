/** src/components/protected-route.tsx: redirect to the login page, or render the children. */
module ProtectedRoute {

  /** What the guard renders: a `<Navigate>` element or the children themselves. */
  datatype Element<C> = Navigate(to: string, replace: bool) | Render(children: C)

  const LoginPath := "/login"

  function Guard<C>(isAuthenticated: bool, children: C): (r: Element<C>)
    ensures r.Navigate? <==> !isAuthenticated
    ensures r.Navigate? ==> r.to == LoginPath && r.replace
    ensures r.Render? ==> r.children == children
  {
    if !isAuthenticated then Navigate(LoginPath, true) else Render(children)
  }

  /** The decision depends only on the flag: two guards with the same flag agree on redirecting, and on the target. */
  lemma GuardDependsOnlyOnFlag<C>(a: bool, c1: C, c2: C)
    ensures Guard(a, c1).Navigate? == Guard(a, c2).Navigate?
    ensures !a ==> Guard(a, c1) == Guard(a, c2)
  {
  }
}
