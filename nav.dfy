/** The dashboard navigation (app/components/dashboard/nav.tsx): which items are
    highlighted for the current path. */
module Nav {
  import opened Common

  datatype NavItem = NavItem(href: string, labelText: string)

  const Overview := NavItem("/dashboard", "Overview")
  const OutOfOffice := NavItem("/dashboard/oof", "Out of Office")
  const EmailForwarding := NavItem("/dashboard/forwarding", "Email Forwarding")

  const NavItems: seq<NavItem> := [Overview, OutOfOffice, EmailForwarding]

  /** `pathname === href || pathname.startsWith(href + '/')`. */
  predicate IsActive(pathname: string, href: string) {
    pathname == href || StartsWith(pathname, href + "/")
  }

  /** An item is active exactly on its own page and on the pages below it: the
      path is the href, or the href followed by a '/' and anything. */
  lemma ActiveIffAtOrBelow(pathname: string, href: string)
    ensures IsActive(pathname, href) <==>
      pathname == href || exists rest :: pathname == href + "/" + rest
  {
    if StartsWith(pathname, href + "/") {
      var rest := pathname[|href| + 1..];
      assert pathname == href + "/" + rest;
    }
    if exists rest :: pathname == href + "/" + rest {
      var rest :| pathname == href + "/" + rest;
      assert pathname[..|href + "/"|] == href + "/";
    }
  }

  /** A path that merely continues the href without a '/' boundary, such as
      '/dashboard/oofx' for '/dashboard/oof', does not activate it. */
  lemma NoBoundaryNotActive(href: string, more: string)
    requires more != [] && more[0] != '/'
    ensures !IsActive(href + more, href)
  {
    var p := href + more;
    assert p[|href|] == more[0];
  }

  /** '/dashboard/oofx' does not highlight "Out of Office". */
  lemma SiblingPathNotActive()
    ensures !IsActive("/dashboard/oofx", OutOfOffice.href)
  {
    assert "/dashboard/oofx" == OutOfOffice.href + "x";
    NoBoundaryNotActive(OutOfOffice.href, "x");
  }

  /** An item whose href lies below another's is never active without it. */
  lemma NestedItemImpliesParent(pathname: string, parent: string, child: string)
    requires StartsWith(child, parent + "/")
    ensures IsActive(pathname, child) ==> IsActive(pathname, parent)
  {
    if IsActive(pathname, child) {
      assert pathname[..|parent + "/"|] == child[..|parent + "/"|];
    }
  }

  /** The highlight flag of each item, in order. */
  function ActiveFlags(pathname: string, items: seq<NavItem>): (flags: seq<bool>)
    ensures |flags| == |items|
    ensures forall k :: 0 <= k < |items| ==> (flags[k] <==> IsActive(pathname, items[k].href))
  {
    if items == [] then [] else [IsActive(pathname, items[0].href)] + ActiveFlags(pathname, items[1..])
  }

  /** On the out-of-office and forwarding pages and below them, Overview is
      highlighted too: two items are active at once. */
  lemma OverviewStaysActive(pathname: string)
    requires IsActive(pathname, OutOfOffice.href) || IsActive(pathname, EmailForwarding.href)
    ensures var flags := ActiveFlags(pathname, NavItems);
      flags[0] && (flags[1] || flags[2])
  {
    assert StartsWith(OutOfOffice.href, Overview.href + "/");
    assert StartsWith(EmailForwarding.href, Overview.href + "/");
    NestedItemImpliesParent(pathname, Overview.href, OutOfOffice.href);
    NestedItemImpliesParent(pathname, Overview.href, EmailForwarding.href);
  }
}
