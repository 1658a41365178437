/** The route guards that wrap the dashboard and its role-specific pages. */
module Routes {
  import opened Common

  /** The location the router is at; it travels with a redirect as `from`. */
  datatype Location = Location(pathname: string)

  /** What a guard renders. */
  datatype View = ShowLoader | Redirect(to: string, from: Location, replace: bool) | RenderChildren | AccessDenied

  /** `PrivateRoute`: the loader while auth loads, a replacing redirect to /login without a user, else the page. */
  function PrivateRoute(loading: bool, user: Option<User>, location: Location): (v: View)
    ensures v == ShowLoader <==> loading
    ensures v.Redirect? <==> !loading && user.None?
    ensures v.Redirect? ==> v == Redirect("/login", location, true)
    ensures v == RenderChildren <==> !loading && user.Some?
    ensures v != AccessDenied
  {
    if loading then ShowLoader
    else if user.None? then Redirect("/login", location, true)
    else RenderChildren
  }

  /** While auth is loading the loader shows whoever the user is and wherever the router is. */
  lemma LoaderIgnoresUser(u1: Option<User>, u2: Option<User>, l1: Location, l2: Location)
    ensures PrivateRoute(true, u1, l1) == PrivateRoute(true, u2, l2) == ShowLoader
  {
  }

  /** `VendorRoute`: the page for the role "vendor", Access Denied for any other role and while the role is unknown. */
  function VendorRoute(role: Option<string>): (v: View)
    ensures v == RenderChildren <==> role == Some("vendor")
    ensures v != RenderChildren ==> v == AccessDenied
  {
    if role != Some("vendor") then AccessDenied else RenderChildren
  }

  /** `AdminRoute`: the page for the role "admin", Access Denied for any other role and while the role is unknown. */
  function AdminRoute(role: Option<string>): (v: View)
    ensures v == RenderChildren <==> role == Some("admin")
    ensures v != RenderChildren ==> v == AccessDenied
  {
    if role != Some("admin") then AccessDenied else RenderChildren
  }

  /** No role passes both role guards, and the roles "user" and not-yet-fetched pass neither. */
  lemma RoleGuardsExclusive(role: Option<string>)
    ensures !(VendorRoute(role) == RenderChildren && AdminRoute(role) == RenderChildren)
    ensures role == Some("user") || role.None? ==> VendorRoute(role) == AccessDenied && AdminRoute(role) == AccessDenied
  {
  }

  /** A vendor page under the dashboard renders exactly for a signed-in user, once auth has loaded, whose role is "vendor". */
  lemma VendorPageUnderDashboard(loading: bool, user: Option<User>, location: Location, role: Option<string>)
    ensures (PrivateRoute(loading, user, location) == RenderChildren && VendorRoute(role) == RenderChildren)
        <==> !loading && user.Some? && role == Some("vendor")
  {
  }
}
