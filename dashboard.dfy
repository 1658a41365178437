/** The dashboard layout: the sidebar menu each role sees and the logout confirmation. */
module DashboardLayout {
  import opened Common
  /** An entry of the sidebar: a navigation link or the logout button. */
  datatype MenuEntry = Link(path: string) | LogoutButton

  const Overview: string := "/dashboard"
  const AddProducts: string := "/dashboard/add-products"

  /** The links rendered between Overview and Logout for a role (`None` while the role is not fetched). */
  function RoleLinks(role: Option<string>): (links: seq<string>)
    ensures role == Some("admin") ==> links == ["/dashboard/all-users", "/dashboard/all-products", "/dashboard/all-ads",
                                                AddProducts, "/dashboard/update-products"]
    ensures role == Some("vendor") ==> links == ["/dashboard/products", AddProducts, "/dashboard/add-ads", "/dashboard/ads"]
    ensures role == Some("user") ==> links == ["/dashboard/my-orders", "/dashboard/profile"]
    ensures role !in {Some("admin"), Some("vendor"), Some("user")} ==> links == []
  {
    if role == Some("admin") then
      ["/dashboard/all-users", "/dashboard/all-products", "/dashboard/all-ads", AddProducts, "/dashboard/update-products"]
    else if role == Some("vendor") then
      ["/dashboard/products", AddProducts, "/dashboard/add-ads", "/dashboard/ads"]
    else if role == Some("user") then
      ["/dashboard/my-orders", "/dashboard/profile"]
    else []
  }

  /** The whole sidebar, top to bottom. */
  function Menu(role: Option<string>): (entries: seq<MenuEntry>)
    ensures |entries| == |RoleLinks(role)| + 2
    ensures forall k :: 0 <= k < |RoleLinks(role)| ==> entries[k + 1] == Link(RoleLinks(role)[k])
  {
    [Link(Overview)] + seq(|RoleLinks(role)|, k requires 0 <= k < |RoleLinks(role)| => Link(RoleLinks(role)[k])) + [LogoutButton]
  }

  /** Every role, known or not, gets Overview first and Logout last; an unknown role gets nothing else. */
  lemma CommonEntries(role: Option<string>)
    ensures Menu(role)[0] == Link(Overview)
    ensures Menu(role)[|Menu(role)| - 1] == LogoutButton
    ensures role !in {Some("admin"), Some("vendor"), Some("user")} ==> Menu(role) == [Link(Overview), LogoutButton]
  {
  }

  /** No role's menu lists an entry twice, and Logout appears exactly once. */
  lemma MenuHasNoDuplicates(role: Option<string>)
    ensures forall i, j :: 0 <= i < j < |Menu(role)| ==> Menu(role)[i] != Menu(role)[j]
  {
    var m := Menu(role);
    var links := RoleLinks(role);
    forall i, j | 0 <= i < j < |m|
      ensures m[i] != m[j]
    {
      if j == |m| - 1 {
        assert m[i].Link?;
      } else if i == 0 {
        assert m[j] == Link(links[j - 1]);
      } else {
        assert m[i] == Link(links[i - 1]) && m[j] == Link(links[j - 1]);
      }
    }
  }

  /** "add-products" is the only link the admin and vendor menus share; the user menu shares none with either. */
  lemma SharedAdminVendorLink(path: string)
    ensures path in RoleLinks(Some("admin")) && path in RoleLinks(Some("vendor")) <==> path == AddProducts
    ensures path in RoleLinks(Some("user")) ==> path !in RoleLinks(Some("admin")) && path !in RoleLinks(Some("vendor"))
  {
  }

  /** What `handleLogout` does. */
  datatype LogoutOutcome = Stay | LoggedOut(navigateTo: string) | LogoutFailed

  /** `handleLogout`: `logoutUser` runs only after confirmation; on success the app goes to "/". */
  function HandleLogout(confirmed: bool, logoutSucceeds: bool): (r: LogoutOutcome)
    ensures r != Stay <==> confirmed
    ensures r == LoggedOut("/") <==> confirmed && logoutSucceeds
    ensures r.LoggedOut? ==> r.navigateTo == "/"
  {
    if !confirmed then Stay
    else if logoutSucceeds then LoggedOut("/")
    else LogoutFailed
  }
}
