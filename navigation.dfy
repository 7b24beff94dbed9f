/** The navigation bar of app/_component/navigation.js: the role-keyed link
    list, the active-link test and when the logout control shows; and, from
    the pages' own `ProtectedRoute` wrappers, which roles each linked page admits. */
module Navigation {
  import opened JsValues
  import Auth
  import RouteGuard

  datatype Link = Link(href: string, text: string)

  const PublicLinks := [Link("/", "Home"), Link("/about", "About"), Link("/contact", "Contact")]
  const AuthLinks := [Link("/login", "Login"), Link("/register", "Register")]
  const UserLinks := [Link("/search", "Search Flights"), Link("/bookings", "My Bookings")]
  const AdminLinks := [Link("/admin", "Dashboard"), Link("/admin/flights", "Manage Flights"),
                       Link("/admin/bookings", "Bookings"), Link("/admin/payments", "Payments")]

  /** `getNavLinks()`: public and auth links for a visitor, the admin links for
      role "admin", the user links for any other role. */
  function NavLinks(user: Option<Auth.User>): (links: seq<Link>)
    ensures user.None? ==> links == PublicLinks + AuthLinks
    ensures user.Some? && user.value.role == "admin" ==> links == AdminLinks
    ensures user.Some? && user.value.role != "admin" ==> links == UserLinks
  {
    if user.None? then PublicLinks + AuthLinks
    else if user.value.role == "admin" then AdminLinks
    else UserLinks
  }

  /** `pathname === link.href`. */
  predicate IsActive(pathname: string, link: Link)
  {
    pathname == link.href
  }

  /** The logout control renders on `user &&`. */
  predicate ShowsLogout(user: Option<Auth.User>)
  {
    user.Some?
  }

  /** The `allowedRoles` each page passes to its guard; `None` for pages without a guard. */
  function PageGuard(href: string): Option<seq<string>>
  {
    if href in {"/search", "/bookings"} then Some(["user"])
    else if href in {"/admin", "/admin/flights", "/admin/bookings", "/admin/payments"} then Some(["admin"])
    else None
  }

  /** A logged-in user never sees a public or an auth link, and a visitor sees no guarded page. */
  lemma LoggedInSeesNoPublicLinks(user: Auth.User, link: Link)
    requires link in NavLinks(Some(user))
    ensures link !in PublicLinks && link !in AuthLinks
    ensures link !in NavLinks(None)
  {
  }

  /** The logout control shows exactly when the links are the role links. */
  lemma LogoutShownIffRoleLinks(user: Option<Auth.User>)
    ensures ShowsLogout(user) <==> NavLinks(user) != PublicLinks + AuthLinks
  {
    assert (PublicLinks + AuthLinks)[0] == Link("/", "Home");
  }

  /** At most one link is active: the hrefs of each list are distinct. */
  lemma AtMostOneActive(user: Option<Auth.User>, pathname: string, i: nat, j: nat)
    requires i < |NavLinks(user)| && j < |NavLinks(user)|
    requires IsActive(pathname, NavLinks(user)[i]) && IsActive(pathname, NavLinks(user)[j])
    ensures i == j
  {
  }

  /** For the two roles the back end issues, every link shown leads to a page
      whose guard renders it, and every visitor link leads to an unguarded page. */
  lemma LinksLeadToAdmittedPages(user: Option<Auth.User>, link: Link)
    requires user.None? || user.value.role in {"user", "admin"}
    requires link in NavLinks(user)
    ensures user.None? ==> PageGuard(link.href).None?
    ensures user.Some? ==> RouteGuard.Decide(false, user, PageGuard(link.href)) == RouteGuard.Children
  {
  }

  /** A role other than "user" and "admin" is shown the user links, but the
      search page's guard sends it to "/search" again. */
  lemma OtherRoleRedirectLoop(user: Auth.User)
    requires user.role != "user" && user.role != "admin"
    ensures Link("/search", "Search Flights") in NavLinks(Some(user))
    ensures RouteGuard.Redirects(false, Some(user), PageGuard("/search")) == ["/search"]
  {
  }
}
