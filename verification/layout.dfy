/**
 * The site navigation bar: a fixed table of links, each highlighted when
 * the current pathname matches it.
 */
module Layout {

  datatype NavLink = NavLink(href: string, text: string)

  const NavLinks: seq<NavLink> := [
    NavLink("/", "Home"),
    NavLink("/about", "About"),
    NavLink("/contact", "Contact"),
    NavLink("/mock", "Mock API"),
    NavLink("/docs", "Docs")
  ]

  const RootHref: string := "/"
  const BaseClass: string := "hover:text-emerald-300 transition-colors "
  const ActiveClass: string := "text-emerald-300"

  /**
   * A link is active on an exact match, or, unless it is the root link,
   * when the pathname starts with its href (a plain string prefix).
   */
  predicate IsActive(pathname: string, href: string)
    ensures IsActive(pathname, href) ==> |href| <= |pathname| && pathname[..|href|] == href
    ensures |href| <= |pathname| && pathname[..|href|] == href && href != RootHref ==> IsActive(pathname, href)
  {
    pathname == href || (href != RootHref && href <= pathname)
  }

  /** One rendered `<Link>`: its target, its text and its class name. */
  datatype RenderedLink = RenderedLink(to: string, text: string, className: string)

  function RenderLink(pathname: string, link: NavLink): RenderedLink
  {
    RenderedLink(link.href, link.text, BaseClass + (if IsActive(pathname, link.href) then ActiveClass else ""))
  }

  /** The navigation bar for a pathname: one link per table entry, in table order, highlighted exactly when active. */
  function RenderNav(pathname: string): (items: seq<RenderedLink>)
    ensures |items| == |NavLinks|
    ensures forall i :: 0 <= i < |items| ==>
      items[i].to == NavLinks[i].href && items[i].text == NavLinks[i].text
    ensures forall i :: 0 <= i < |items| ==>
      (items[i].className == BaseClass + ActiveClass <==> IsActive(pathname, NavLinks[i].href))
    ensures forall i :: 0 <= i < |items| ==>
      (items[i].className == BaseClass <==> !IsActive(pathname, NavLinks[i].href))
  {
    seq(|NavLinks|, i requires 0 <= i < |NavLinks| => RenderLink(pathname, NavLinks[i]))
  }

  /** Every link is active on its own href. */
  lemma ExactMatchActive(href: string)
    ensures IsActive(href, href)
  {
  }

  /** The root link is active on `/` and nowhere else. */
  lemma RootOnlyExact(pathname: string)
    ensures IsActive(pathname, RootHref) <==> pathname == RootHref
  {
  }

  /** A non-root link is active on every pathname that starts with its href. */
  lemma PrefixActivates(href: string, rest: string)
    requires href != RootHref
    ensures IsActive(href + rest, href)
  {
    assert href <= href + rest;
  }

  /** The prefix test is not segment-aware: the Docs link is highlighted on `/docsx` too. */
  lemma PrefixNotSegmentAware()
    ensures IsActive("/docs/search", "/docs")
    ensures IsActive("/docsx", "/docs")
    ensures !IsActive("/doc", "/docs")
  {
    assert "/docs" <= "/docsx";
    assert "/docs" <= "/docs/search";
  }

  /** A pathname shorter than an href never activates that link. */
  lemma ShortPathInactive(pathname: string, href: string)
    requires |pathname| < |href|
    ensures !IsActive(pathname, href)
  {
  }

  /** With the fixed table, no pathname highlights two links. */
  lemma AtMostOneActive(pathname: string, i: nat, j: nat)
    requires i < j < |NavLinks|
    ensures !(IsActive(pathname, NavLinks[i].href) && IsActive(pathname, NavLinks[j].href))
  {
    var a := NavLinks[i].href;
    var b := NavLinks[j].href;
    if IsActive(pathname, b) {
      // every non-root href differs from every other at its second character
      assert |pathname| >= |b| > 1;
      assert pathname[1] == b[1];
      assert a == RootHref || a[1] != b[1];
    }
  }

  /** Rendered form of AtMostOneActive: at most one item carries the highlight class. */
  lemma AtMostOneHighlighted(pathname: string, i: nat, j: nat)
    requires i < j < |NavLinks|
    ensures !(RenderNav(pathname)[i].className == BaseClass + ActiveClass
              && RenderNav(pathname)[j].className == BaseClass + ActiveClass)
  {
    AtMostOneActive(pathname, i, j);
  }
}
