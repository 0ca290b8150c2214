/** components/layout/sidebar.tsx: the navigation table and which of its
    buttons is highlighted for the current location. */
module Sidebar {
  import opened Ui

  datatype NavItem = NavItem(name: string, href: string)

  const Navigation: seq<NavItem> := [
    NavItem("Dashboard", "/dashboard"),
    NavItem("Production", "/dashboard/production"),
    NavItem("Equipment", "/dashboard/equipment"),
    NavItem("Inventory", "/dashboard/inventory"),
    NavItem("Financial", "/dashboard/financial"),
    NavItem("Users", "/dashboard/users"),
    NavItem("Safety", "/dashboard/safety")
  ]

  /** isActive: the exact path, or any path that starts with the link, except for
      the dashboard link, which only the exact path activates. */
  predicate IsActive(pathname: string, href: string) {
    pathname == href || (href != "/dashboard" && href <= pathname)
  }

  datatype NavButton = NavButton(name: string, href: string, variant: Variant)

  /** `navigation.map(...)`: one button per entry, "secondary" when active, "ghost" otherwise. */
  function NavButtons(pathname: string): (bs: seq<NavButton>)
    ensures |bs| == |Navigation|
    ensures forall i :: 0 <= i < |bs| ==> bs[i].name == Navigation[i].name && bs[i].href == Navigation[i].href
    ensures forall i :: 0 <= i < |bs| ==> (bs[i].variant == Secondary <==> IsActive(pathname, Navigation[i].href))
    ensures forall i :: 0 <= i < |bs| ==> bs[i].variant in {Secondary, Ghost}
  {
    seq(|Navigation|, i requires 0 <= i < |Navigation| =>
      NavButton(Navigation[i].name, Navigation[i].href,
                if IsActive(pathname, Navigation[i].href) then Secondary else Ghost))
  }

  /** The dashboard link is active on "/dashboard" and nowhere else. */
  lemma DashboardOnlyOnExactPath(pathname: string)
    ensures IsActive(pathname, Navigation[0].href) <==> pathname == "/dashboard"
  {
  }

  /** A link is active on its own path. */
  lemma OwnPathActive(i: nat)
    requires i < |Navigation|
    ensures IsActive(Navigation[i].href, Navigation[i].href)
  {
  }

  /** No link below the dashboard starts with another link of the table. */
  lemma NoNestedLinks(i: nat, j: nat)
    requires 0 < i < |Navigation| && 0 < j < |Navigation| && i != j
    ensures !(Navigation[i].href <= Navigation[j].href)
  {
    var a, b := Navigation[i].href, Navigation[j].href;
    assert |a| > 11 && |b| > 11;
    assert a[11] != b[11] || a[12] != b[12];
  }

  lemma PrefixesOfOnePath(a: string, b: string, p: string)
    requires a <= p && b <= p && |a| <= |b|
    ensures a <= b
  {
    assert a == p[..|a|] && b == p[..|b|];
    assert b[..|a|] == p[..|a|];
  }

  /** Whatever the location, at most one entry of the table is active. */
  lemma AtMostOneActive(pathname: string, i: nat, j: nat)
    requires i < |Navigation| && j < |Navigation|
    requires IsActive(pathname, Navigation[i].href) && IsActive(pathname, Navigation[j].href)
    ensures i == j
  {
    var a, b := Navigation[i].href, Navigation[j].href;
    if i != j {
      if i == 0 || j == 0 {
        DashboardOnlyOnExactPath(pathname);
      } else if |a| <= |b| {
        PrefixesOfOnePath(a, b, pathname);
        NoNestedLinks(i, j);
      } else {
        PrefixesOfOnePath(b, a, pathname);
        NoNestedLinks(j, i);
      }
    }
  }

  /** At most one button of the rendered sidebar is highlighted. */
  lemma AtMostOneHighlighted(pathname: string, i: nat, j: nat)
    requires i < |Navigation| && j < |Navigation|
    requires NavButtons(pathname)[i].variant == Secondary && NavButtons(pathname)[j].variant == Secondary
    ensures i == j
  {
    AtMostOneActive(pathname, i, j);
  }

  /** A sub-path highlights its section, not the dashboard. */
  lemma SubPathActivatesSection()
    ensures IsActive("/dashboard/inventory/5", Navigation[3].href)
    ensures !IsActive("/dashboard/inventory/5", Navigation[0].href)
  {
    assert Navigation[3].href == "/dashboard/inventory/5"[..20];
  }

  /** The match is on characters, not path segments: a longer sibling name activates the link. */
  lemma PrefixIsNotSegment()
    ensures IsActive("/dashboard/inventory-archive", Navigation[3].href)
  {
    assert Navigation[3].href == "/dashboard/inventory-archive"[..20];
  }
}
