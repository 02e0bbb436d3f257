/** The site navigation bar: the `/study/...` and `/partner/...` links built
    from display names, and the open/closed flags of the desktop dropdowns,
    the mobile menu and its two sub-menus. */
module NavbarComponent {
  import opened Json

  // ---------------------------------------------------------------------
  // Slugs and links
  // ---------------------------------------------------------------------

  /** The ASCII characters matched by the regular-expression class `\s`. */
  predicate IsSpace(c: char) {
    c == ' ' || c == '\t' || c == '\n' || c == '\r' || c == '\U{000B}' || c == '\U{000C}'
  }

  predicate IsUpper(c: char) {
    'A' <= c <= 'Z'
  }

  /** `toLowerCase` on one ASCII character. */
  function ToLower(c: char): (r: char)
    ensures !IsUpper(r)
    ensures IsSpace(r) <==> IsSpace(c)
    ensures IsUpper(c) ==> r as int == c as int + 32
    ensures !IsUpper(c) ==> r == c
  {
    if IsUpper(c) then (c as int + 32) as char else c
  }

  predicate NoSpace(s: string) {
    forall i :: 0 <= i < |s| ==> !IsSpace(s[i])
  }

  predicate AllSpace(s: string) {
    forall i :: 0 <= i < |s| ==> IsSpace(s[i])
  }

  /** The rest of `s` after its leading run of whitespace. */
  function DropSpaces(s: string): (r: string)
    ensures |r| <= |s|
    ensures r == [] || !IsSpace(r[0])
  {
    if s != [] && IsSpace(s[0]) then DropSpaces(s[1..]) else s
  }

  /** `name.toLowerCase().replace(/\s+/g, '-')`: the name lower-cased, with
      each maximal run of whitespace replaced by a single '-'. */
  function Slug(name: string): (r: string)
    ensures |r| <= |name|
    decreases |name|
  {
    if name == [] then []
    else if IsSpace(name[0]) then "-" + Slug(DropSpaces(name[1..]))
    else [ToLower(name[0])] + Slug(name[1..])
  }

  /** A slug holds no whitespace and no upper-case letter. */
  lemma {:induction false} SlugIsClean(name: string)
    ensures forall i :: 0 <= i < |Slug(name)| ==> !IsSpace(Slug(name)[i]) && !IsUpper(Slug(name)[i])
    decreases |name|
  {
    if name != [] {
      if IsSpace(name[0]) {
        SlugIsClean(DropSpaces(name[1..]));
      } else {
        SlugIsClean(name[1..]);
      }
    }
  }

  /** The whole string lower-cased, character by character. */
  function LowerAll(s: string): (r: string)
    ensures |r| == |s|
  {
    seq(|s|, i requires 0 <= i < |s| => ToLower(s[i]))
  }

  /** A name without whitespace is only lower-cased. */
  lemma {:induction false} SlugOfWord(w: string)
    requires NoSpace(w)
    ensures Slug(w) == LowerAll(w)
    decreases |w|
  {
    if w != [] {
      SlugOfWord(w[1..]);
      assert LowerAll(w) == [ToLower(w[0])] + LowerAll(w[1..]);
    }
  }

  /** Skipping leading whitespace of `x + y`, when `x` ends in a non-space,
      only touches `x`. */
  lemma {:induction false} DropSpacesAppend(x: string, y: string)
    requires x != [] && !IsSpace(x[|x| - 1])
    ensures DropSpaces(x) != [] && DropSpaces(x)[|DropSpaces(x)| - 1] == x[|x| - 1]
    ensures DropSpaces(x + y) == DropSpaces(x) + y
    decreases |x|
  {
    assert (x + y)[0] == x[0];
    if IsSpace(x[0]) {
      assert (x + y)[1..] == x[1..] + y;
      DropSpacesAppend(x[1..], y);
    }
  }

  /** A run of whitespace followed by a word (or nothing) is skipped whole. */
  lemma {:induction false} DropSpacesOfRun(run: string, b: string)
    requires AllSpace(run)
    requires b == [] || !IsSpace(b[0])
    ensures DropSpaces(run + b) == b
    decreases |run|
  {
    if run != [] {
      assert (run + b)[0] == run[0] && (run + b)[1..] == run[1..] + b;
      DropSpacesOfRun(run[1..], b);
    } else {
      assert run + b == b;
    }
  }

  /** One step of `Slug` on a name that starts with whitespace. */
  lemma SlugSpaceStep(s: string)
    requires s != [] && IsSpace(s[0])
    ensures Slug(s) == "-" + Slug(DropSpaces(s[1..]))
  {
  }

  /** One step of `Slug` on a name that starts with a non-space. */
  lemma SlugCharStep(s: string)
    requires s != [] && !IsSpace(s[0])
    ensures Slug(s) == [ToLower(s[0])] + Slug(s[1..])
  {
  }

  /** SlugJoin when nothing precedes the whitespace run. */
  lemma SlugJoinAtStart(run: string, b: string)
    requires run != [] && AllSpace(run)
    requires b == [] || !IsSpace(b[0])
    ensures Slug(run + b) == "-" + Slug(b)
  {
    var s := run + b;
    assert s[0] == run[0] && s[1..] == run[1..] + b;
    DropSpacesOfRun(run[1..], b);
    SlugSpaceStep(s);
  }

  /** SlugJoin's step when the name starts with whitespace, given the claim
      for what follows that leading run. */
  lemma SlugJoinSpaceStep(a: string, run: string, b: string)
    requires a != [] && IsSpace(a[0]) && !IsSpace(a[|a| - 1])
    requires DropSpaces(a[1..]) != []
    requires DropSpaces(a[1..] + (run + b)) == DropSpaces(a[1..]) + (run + b)
    requires Slug(DropSpaces(a[1..]) + run + b) == Slug(DropSpaces(a[1..])) + "-" + Slug(b)
    ensures Slug(a + run + b) == Slug(a) + "-" + Slug(b)
  {
    var s := a + run + b;
    var a2 := DropSpaces(a[1..]);
    Assoc(a, run, b);
    ConsSplit(a, run + b);
    Assoc(a2, run, b);
    SlugSpaceStep(s);
    SlugSpaceStep(a);
    var x, y := Slug(a2), Slug(b);
    Assoc("-", x + "-", y);
    Assoc("-", x, "-");
  }

  /** Concatenation regrouped. */
  lemma Assoc(x: string, y: string, z: string)
    ensures x + y + z == x + (y + z)
  {
  }

  /** Splitting off the first character of a concatenation. */
  lemma ConsSplit(a: string, rest: string)
    requires a != []
    ensures (a + rest)[0] == a[0] && (a + rest)[1..] == a[1..] + rest
  {
  }

  /** SlugJoin's step when the name starts with a non-space, given the claim
      for the rest of the name. */
  lemma SlugJoinCharStep(a: string, run: string, b: string)
    requires a != [] && !IsSpace(a[0])
    requires Slug(a[1..] + (run + b)) == Slug(a[1..]) + "-" + Slug(b)
    ensures Slug(a + (run + b)) == Slug(a) + "-" + Slug(b)
  {
    ConsSplit(a, run + b);
    SlugCharStep(a + (run + b));
    SlugCharStep(a);
  }

  /** The slug of a name split at a maximal whitespace run is the two sides'
      slugs joined by one '-'. Together with SlugOfWord this determines the
      slug of every name. */
  lemma {:induction false} SlugJoin(a: string, run: string, b: string)
    requires a == [] || !IsSpace(a[|a| - 1])
    requires run != [] && AllSpace(run)
    requires b == [] || !IsSpace(b[0])
    ensures Slug(a + run + b) == Slug(a) + "-" + Slug(b)
    decreases |a|
  {
    if a == [] {
      SlugJoinAtStart(run, b);
      assert a + run == run;
    } else if IsSpace(a[0]) {
      DropSpacesAppend(a[1..], run + b);
      SlugJoin(DropSpaces(a[1..]), run, b);
      SlugJoinSpaceStep(a, run, b);
    } else {
      SlugJoin(a[1..], run, b);
      Assoc(a[1..], run, b);
      SlugJoinCharStep(a, run, b);
      Assoc(a, run, b);
    }
  }

  /** A two-word name such as "United Kingdom" or "Recruitment Partner"
      becomes its lower-cased words joined by '-' ("united-kingdom"). */
  lemma SlugOfTwoWords(w1: string, sep: string, w2: string)
    requires w1 != [] && NoSpace(w1) && w2 != [] && NoSpace(w2)
    requires sep != [] && AllSpace(sep)
    ensures Slug(w1 + sep + w2) == LowerAll(w1) + "-" + LowerAll(w2)
  {
    SlugJoin(w1, sep, w2);
    SlugOfWord(w1);
    SlugOfWord(w2);
  }

  const StudyPrefix: string := "/study/"
  const PartnerPrefix: string := "/partner/"

  /** The link of a study destination, the same on desktop and on mobile. */
  function StudyHref(name: string): (r: string)
    ensures |StudyPrefix| <= |r| <= |StudyPrefix| + |name|
    ensures r[..|StudyPrefix|] == StudyPrefix
    ensures forall i :: |StudyPrefix| <= i < |r| ==> !IsSpace(r[i]) && !IsUpper(r[i])
  {
    SlugIsClean(name);
    StudyPrefix + Slug(name)
  }

  /** The link of a partner type, the same on desktop and on mobile. */
  function PartnerHref(name: string): (r: string)
    ensures |PartnerPrefix| <= |r| <= |PartnerPrefix| + |name|
    ensures r[..|PartnerPrefix|] == PartnerPrefix
    ensures forall i :: |PartnerPrefix| <= i < |r| ==> !IsSpace(r[i]) && !IsUpper(r[i])
  {
    SlugIsClean(name);
    PartnerPrefix + Slug(name)
  }

  // ---------------------------------------------------------------------
  // Menu flags
  // ---------------------------------------------------------------------

  /** Where a document click landed: inside the mobile menu, on the menu
      button, inside the desktop Study region, inside the desktop Partner
      region. */
  datatype ClickTarget = ClickTarget(inMobileMenu: bool, onMenuButton: bool, inStudy: bool, inPartner: bool)

  /** A click with a target outside the mobile menu and its button. */
  predicate OutsideMenu(t: Option<ClickTarget>) {
    t.Some? && !t.value.inMobileMenu && !t.value.onMenuButton
  }

  predicate OutsideStudy(t: Option<ClickTarget>) {
    t.Some? && !t.value.inStudy
  }

  predicate OutsidePartner(t: Option<ClickTarget>) {
    t.Some? && !t.value.inPartner
  }

  class Navbar {
    var isMenuOpen: bool
    var isScrolled: bool
    var isStudyOpen: bool
    var isPartnerOpen: bool
    var isMobileStudyOpen: bool
    var isMobilePartnerOpen: bool

    constructor ()
      ensures !isMenuOpen && !isScrolled && !isStudyOpen && !isPartnerOpen
      ensures !isMobileStudyOpen && !isMobilePartnerOpen
    {
      isMenuOpen, isScrolled := false, false;
      isStudyOpen, isPartnerOpen := false, false;
      isMobileStudyOpen, isMobilePartnerOpen := false, false;
    }

    /** The window's scroll listener. */
    method HandleScroll(scrollY: real)
      modifies this`isScrolled
      ensures isScrolled <==> scrollY > 10.0
    {
      if scrollY > 10.0 {
        isScrolled := true;
      } else {
        isScrolled := false;
      }
    }

    /** The desktop Study button's click negates its flag. */
    method ClickStudy()
      modifies this`isStudyOpen
      ensures isStudyOpen == !old(isStudyOpen)
    {
      isStudyOpen := !isStudyOpen;
    }

    method EnterStudy()
      modifies this`isStudyOpen
      ensures isStudyOpen
    {
      isStudyOpen := true;
    }

    method LeaveStudy()
      modifies this`isStudyOpen
      ensures !isStudyOpen
    {
      isStudyOpen := false;
    }

    /** Choosing a desktop Study entry closes that dropdown and nothing else. */
    method ChooseStudyEntry()
      modifies this`isStudyOpen
      ensures !isStudyOpen
    {
      isStudyOpen := false;
    }

    method ClickPartner()
      modifies this`isPartnerOpen
      ensures isPartnerOpen == !old(isPartnerOpen)
    {
      isPartnerOpen := !isPartnerOpen;
    }

    method EnterPartner()
      modifies this`isPartnerOpen
      ensures isPartnerOpen
    {
      isPartnerOpen := true;
    }

    method LeavePartner()
      modifies this`isPartnerOpen
      ensures !isPartnerOpen
    {
      isPartnerOpen := false;
    }

    method ChoosePartnerEntry()
      modifies this`isPartnerOpen
      ensures !isPartnerOpen
    {
      isPartnerOpen := false;
    }

    /** The hamburger button toggles the mobile menu. */
    method ClickMenuButton()
      modifies this`isMenuOpen
      ensures isMenuOpen == !old(isMenuOpen)
    {
      isMenuOpen := !isMenuOpen;
    }

    /** The mobile menu's close button, logo, "Log in" and "Get Started"
        links close the menu and leave its sub-menus as they are. */
    method CloseMenu()
      modifies this`isMenuOpen
      ensures !isMenuOpen
    {
      isMenuOpen := false;
    }

    method ClickMobileStudy()
      modifies this`isMobileStudyOpen
      ensures isMobileStudyOpen == !old(isMobileStudyOpen)
    {
      isMobileStudyOpen := !isMobileStudyOpen;
    }

    /** Choosing a mobile Study entry closes the sub-menu and the menu. */
    method ChooseMobileStudyEntry()
      modifies this`isMobileStudyOpen, this`isMenuOpen
      ensures !isMobileStudyOpen && !isMenuOpen
    {
      isMobileStudyOpen := false;
      isMenuOpen := false;
    }

    method ClickMobilePartner()
      modifies this`isMobilePartnerOpen
      ensures isMobilePartnerOpen == !old(isMobilePartnerOpen)
    {
      isMobilePartnerOpen := !isMobilePartnerOpen;
    }

    method ChooseMobilePartnerEntry()
      modifies this`isMobilePartnerOpen, this`isMenuOpen
      ensures !isMobilePartnerOpen && !isMenuOpen
    {
      isMobilePartnerOpen := false;
      isMenuOpen := false;
    }

    /** The document click listener: each open menu whose region does not
        hold the target is closed; the others, and both mobile sub-menus, are
        left as they were. */
    method ClickDocument(target: Option<ClickTarget>)
      modifies this`isMenuOpen, this`isStudyOpen, this`isPartnerOpen
      ensures isMenuOpen == (old(isMenuOpen) && !OutsideMenu(target))
      ensures isStudyOpen == (old(isStudyOpen) && !OutsideStudy(target))
      ensures isPartnerOpen == (old(isPartnerOpen) && !OutsidePartner(target))
    {
      if isMenuOpen && target.Some? && !target.value.inMobileMenu && !target.value.onMenuButton {
        isMenuOpen := false;
      }
      if isStudyOpen && target.Some? && !target.value.inStudy {
        isStudyOpen := false;
      }
      if isPartnerOpen && target.Some? && !target.value.inPartner {
        isPartnerOpen := false;
      }
    }
  }
}
