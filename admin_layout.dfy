/** The admin shell: which sidebar link is highlighted and what the header breadcrumb says. */
module AdminLayout {
  import Text

  datatype Link = Link(name: string, href: string)

  const DASHBOARD := "/admin"

  const SIDEBAR: seq<Link> := [
    Link("Dashboard", "/admin"),
    Link("Products", "/admin/products"),
    Link("Enquiries", "/admin/enquiries"),
    Link("Appointments", "/admin/appointments"),
    Link("Gallery", "/admin/gallery"),
    Link("Content", "/admin/content"),
    Link("Settings", "/admin/settings")
  ]

  /** The dashboard link is active only on `/admin` itself; any other link on every path it prefixes. */
  predicate IsActive(href: string, pathname: string) {
    if href == DASHBOARD then pathname == DASHBOARD else Text.StartsWith(pathname, href)
  }

  /** On the dashboard exactly the first link is highlighted. */
  lemma DashboardActiveOnlyThere(pathname: string)
    ensures IsActive(SIDEBAR[0].href, pathname) <==> pathname == DASHBOARD
    ensures pathname == DASHBOARD ==>
      forall j :: 1 <= j < |SIDEBAR| ==> !IsActive(SIDEBAR[j].href, pathname)
  {
  }

  /**
   * Anywhere under a section, that section's link is the only one
   * highlighted: the section paths all differ at their eighth character.
   */
  lemma SectionActiveAlone(i: nat, pathname: string)
    requires 1 <= i < |SIDEBAR| && Text.StartsWith(pathname, SIDEBAR[i].href)
    ensures forall j :: 0 <= j < |SIDEBAR| ==> (IsActive(SIDEBAR[j].href, pathname) <==> j == i)
  {
    assert forall j :: 1 <= j < |SIDEBAR| ==> |SIDEBAR[j].href| > 7;
    assert forall j :: 1 <= j < |SIDEBAR| && j != i ==> SIDEBAR[j].href[7] != SIDEBAR[i].href[7];
    assert pathname[7] == SIDEBAR[i].href[7];
  }

  /** The match is a raw prefix: a path merely beginning with a section's text activates it. */
  lemma RawPrefixMatch()
    ensures IsActive("/admin/products", "/admin/productsX")
    ensures !IsActive(DASHBOARD, "/admin/products")
  {
  }

  /** `pathname.split("/").pop() || "Dashboard"`: the last path segment, unless it is empty. */
  function Breadcrumb(pathname: string): (r: string)
    ensures r != ""
    ensures '/' !in r || r == "Dashboard"
  {
    var last := Text.AfterLast(pathname, '/');
    if last != "" then last else "Dashboard"
  }

  /** A section path shows its own segment. */
  lemma BreadcrumbOfSection(prefix: string, segment: string)
    requires segment != "" && '/' !in segment
    ensures Breadcrumb(prefix + "/" + segment) == segment
  {
    Text.AfterLastOfJoin(prefix, '/', segment);
  }

  /** The dashboard itself shows `admin`, and a trailing slash falls back to `Dashboard`. */
  lemma BreadcrumbEdgeCases(prefix: string)
    ensures Breadcrumb(DASHBOARD) == "admin"
    ensures Breadcrumb(prefix + "/") == "Dashboard"
  {
    BreadcrumbOfSection("", "admin");
    assert "" + "/" + "admin" == DASHBOARD;
    Text.AfterLastOfJoin(prefix, '/', "");
    assert prefix + "/" + "" == prefix + "/";
  }
}
