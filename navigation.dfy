/**
 * The site navigation bar: its six links, which of them is highlighted for the
 * current location, the links' test ids, and the open/closed state of the
 * mobile menu.
 */
module Navigation {
  import opened Slugs

  /** A link: its target and its visible text (`label` in the page). */
  datatype NavLink = NavLink(href: string, text: string)

  /** The links, in the order they are shown. */
  function NavLinks(): (links: seq<NavLink>)
    ensures |links| == 6
  {
    [ NavLink("/", "Home"),
      NavLink("/universities", "Universities"),
      NavLink("/programs", "Programs"),
      NavLink("/admission-process", "Admission Process"),
      NavLink("/verify-authorization", "Verify Authorization"),
      NavLink("/contact", "Contact") ]
  }

  /** `isActive(href)` at `location`: Home only on an exact match, every other link
      whenever the location starts with its href (no path-segment boundary). */
  predicate IsActive(location: string, href: string): (active: bool)
    ensures active ==> |href| <= |location| && location[..|href|] == href
    ensures href == "/" ==> (active <==> location == "/")
    ensures href != "/" && |href| <= |location| && location[..|href|] == href ==> active
  {
    if href == "/" then location == href else href <= location
  }

  const DesktopPrefix := "link-nav-"
  const MobilePrefix := "link-mobile-"

  /** The `data-testid` of a link: `DesktopPrefix` in the bar, `MobilePrefix` in the
      mobile menu, followed by the slug of the link's text. */
  function LinkTestId(prefix: string, link: NavLink): (id: string)
    ensures |prefix| <= |id| <= |prefix| + |link.text|
    ensures id[..|prefix|] == prefix
    ensures SpaceFree(id[|prefix|..])
  {
    var id := prefix + Slug(link.text);
    assert id[|prefix|..] == Slug(link.text);
    id
  }

  /** The mobile menu's `mobileMenuOpen` state. */
  class MobileMenu {
    var open: bool

    constructor ()
      ensures !open
    {
      open := false;
    }

    /** The menu button: open a closed menu, close an open one. */
    method Toggle()
      modifies this
      ensures open == !old(open)
    {
      open := !open;
    }

    /** A mobile link or the mobile "Apply Now" button: the menu closes. */
    method Close()
      modifies this
      ensures !open
    {
      open := false;
    }
  }

  // ------------------------------------------------------------ properties

  /** A link is always active on its own page. */
  lemma OwnPageIsActive(href: string)
    ensures IsActive(href, href)
  {
  }

  /** Without a segment boundary check, "/programsX" highlights Programs. */
  lemma NoSegmentBoundary()
    ensures IsActive("/programsX", NavLinks()[2].href)
    ensures IsActive("/programs/some-id", NavLinks()[2].href)
  {
    assert "/programs" <= "/programsX";
    assert "/programs" <= "/programs/some-id";
  }

  /** At "/", Home is the only highlighted link. */
  lemma OnlyHomeAtRoot(i: nat)
    requires i < |NavLinks()|
    ensures IsActive("/", NavLinks()[i].href) <==> i == 0
  {
    var href := NavLinks()[i].href;
    if i != 0 {
      assert |href| > 1;
      assert !(href <= "/");
    }
  }

  /** Whatever the location, at most one of the six links is highlighted: the hrefs
      other than "/" differ in their second character. */
  lemma AtMostOneActive(location: string, i: nat, j: nat)
    requires i < |NavLinks()| && j < |NavLinks()|
    requires IsActive(location, NavLinks()[i].href) && IsActive(location, NavLinks()[j].href)
    ensures i == j
  {
    if i != j {
      if i == 0 || j == 0 {
        var k := if i == 0 then j else i;
        NavHrefShape(k);
      } else {
        NavHrefShape(i);
        NavHrefShape(j);
        ActiveSecondChar(location, NavLinks()[i].href);
        ActiveSecondChar(location, NavLinks()[j].href);
        NavHrefsDiffer(i, j);
      }
    }
  }

  /** Home's href is "/", and every other href is longer. */
  lemma NavHrefShape(k: nat)
    requires k < 6
    ensures k == 0 ==> NavLinks()[k].href == "/"
    ensures k != 0 ==> |NavLinks()[k].href| > 1 && NavLinks()[k].href != "/"
  {
  }

  /** An active href of two or more characters fixes the location's second character. */
  lemma ActiveSecondChar(location: string, href: string)
    requires IsActive(location, href) && |href| > 1
    ensures |location| > 1 && location[1] == href[1]
  {
    assert location[..|href|][1] == location[1];
  }

  /** The hrefs other than "/" differ in their second character. */
  lemma NavHrefsDiffer(i: nat, j: nat)
    requires 1 <= i < 6 && 1 <= j < 6 && i != j
    requires |NavLinks()[i].href| > 1 && |NavLinks()[j].href| > 1
    ensures NavLinks()[i].href[1] != NavLinks()[j].href[1]
  {
    var links := NavLinks();
    assert links[1].href[1] == 'u' && links[2].href[1] == 'p' && links[3].href[1] == 'a'
        && links[4].href[1] == 'v' && links[5].href[1] == 'c';
  }

  /** The slugs of the six link texts, in link order. */
  const NavSlugs := ["home", "universities", "programs", "admission-process",
                     "verify-authorization", "contact"]

  /** The six links' test ids are the prefix followed by these slugs. */
  lemma NavTestIds(prefix: string, k: nat)
    requires k < |NavLinks()|
    ensures LinkTestId(prefix, NavLinks()[k]) == prefix + NavSlugs[k]
  {
    NavSlug(k);
  }

  lemma NavSlug(k: nat)
    requires k < 6
    ensures Slug(NavLinks()[k].text) == NavSlugs[k]
  {
    var links := NavLinks();
    if k == 0 {
      assert links[0].text == "Home" && NavSlugs[0] == "home";
      HomeSlug();
    } else if k == 1 {
      assert links[1].text == "Universities" && NavSlugs[1] == "universities";
      UniversitiesSlug();
    } else if k == 2 {
      assert links[2].text == "Programs" && NavSlugs[2] == "programs";
      ProgramsSlug();
    } else if k == 3 {
      assert links[3].text == "Admission Process" && NavSlugs[3] == "admission-process";
      AdmissionProcessSlug();
    } else if k == 4 {
      assert links[4].text == "Verify Authorization" && NavSlugs[4] == "verify-authorization";
      VerifyAuthorizationSlug();
    } else {
      assert links[5].text == "Contact" && NavSlugs[5] == "contact";
      ContactSlug();
    }
  }

  lemma HomeSlug()
    ensures Slug("Home") == "home"
  {
    assert Lower("Home") == "home" && SpaceFree("Home");
    SlugOfWord("Home");
  }

  lemma UniversitiesSlug()
    ensures Slug("Universities") == "universities"
  {
    assert Lower("Universities") == "universities" && SpaceFree("Universities");
    SlugOfWord("Universities");
  }

  lemma ProgramsSlug()
    ensures Slug("Programs") == "programs"
  {
    assert Lower("Programs") == "programs" && SpaceFree("Programs");
    SlugOfWord("Programs");
  }

  lemma ContactSlug()
    ensures Slug("Contact") == "contact"
  {
    assert Lower("Contact") == "contact" && SpaceFree("Contact");
    SlugOfWord("Contact");
  }

  lemma AdmissionProcessSlug()
    ensures Slug("Admission Process") == "admission-process"
  {
    AdmissionProcessWords();
    SlugOfTwoWords("Admission", "Process");
    assert "Admission" + " " + "Process" == "Admission Process";
    assert "admission" + "-" + "process" == "admission-process";
  }

  lemma AdmissionProcessWords()
    ensures Lower("Admission") == "admission" && SpaceFree("Admission")
    ensures Lower("Process") == "process" && SpaceFree("Process")
  {
    assert Lower("Admission") == "admission";
  }

  lemma VerifyAuthorizationSlug()
    ensures Slug("Verify Authorization") == "verify-authorization"
  {
    VerifyWord();
    AuthorizationWord();
    SlugOfTwoWords("Verify", "Authorization");
    assert "Verify" + " " + "Authorization" == "Verify Authorization";
    assert "verify" + "-" + "authorization" == "verify-authorization";
  }

  lemma VerifyWord()
    ensures Lower("Verify") == "verify" && SpaceFree("Verify")
  {
  }

  lemma AuthorizationWord()
    ensures Lower("Authorization") == "authorization" && SpaceFree("Authorization")
  {
  }

  /** The slugs start with six different letters. */
  lemma NavSlugInitials(i: nat, j: nat)
    requires i < 6 && j < 6 && i != j
    ensures |NavSlugs[i]| > 0 && |NavSlugs[j]| > 0 && NavSlugs[i][0] != NavSlugs[j][0]
  {
    assert NavSlugs[0][0] == 'h' && NavSlugs[1][0] == 'u' && NavSlugs[2][0] == 'p'
        && NavSlugs[3][0] == 'a' && NavSlugs[4][0] == 'v' && NavSlugs[5][0] == 'c';
  }

  /** Within the bar, and within the mobile menu, no two of the six links share a test id. */
  lemma NavTestIdsDistinct(prefix: string, i: nat, j: nat)
    requires i < |NavLinks()| && j < |NavLinks()| && i != j
    ensures LinkTestId(prefix, NavLinks()[i]) != LinkTestId(prefix, NavLinks()[j])
  {
    NavTestIds(prefix, i);
    NavTestIds(prefix, j);
    NavSlugInitials(i, j);
    var a, b := NavSlugs[i], NavSlugs[j];
    assert (prefix + a)[|prefix|] == a[0];
    assert (prefix + b)[|prefix|] == b[0];
  }

  /** A desktop link never shares its test id with a mobile link. */
  lemma DesktopAndMobileIdsDiffer(a: NavLink, b: NavLink)
    ensures LinkTestId(DesktopPrefix, a) != LinkTestId(MobilePrefix, b)
  {
    var d, m := LinkTestId(DesktopPrefix, a), LinkTestId(MobilePrefix, b);
    assert d[5] == DesktopPrefix[5] == 'n';
    assert m[5] == MobilePrefix[5] == 'm';
  }
}
