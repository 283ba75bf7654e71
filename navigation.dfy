/**
 * `components/layout/Navigation.tsx`: the scroll handler (scrolled flag and
 * the first section containing the reading position), `scrollToSection`,
 * and the mobile-menu toggle. The document is a map from element id to its
 * layout box; scroll offsets are whole pixels.
 */
module Navigation {
  import opened Wrappers

  const Sections: seq<string> := ["hero", "projects", "contest"]

  /** `offsetTop` and `offsetHeight` of an element. */
  datatype Box = Box(offsetTop: int, offsetHeight: int)

  /** `document.getElementById`: the ids present and their boxes. */
  type Document = map<string, Box>

  /** The half-open interval `[offsetTop, offsetTop + offsetHeight)` holds `pos`. */
  predicate Contains(b: Box, pos: int) {
    b.offsetTop <= pos < b.offsetTop + b.offsetHeight
  }

  predicate Matches(doc: Document, id: string, pos: int) {
    id in doc && Contains(doc[id], pos)
  }

  /** The first of `ids`, in order, that exists and contains `pos`. */
  function FirstMatchIn(doc: Document, ids: seq<string>, pos: int): Option<string>
    decreases |ids|
  {
    if ids == [] then None
    else if Matches(doc, ids[0], pos) then Some(ids[0])
    else FirstMatchIn(doc, ids[1..], pos)
  }

  function FirstMatch(doc: Document, pos: int): Option<string> {
    FirstMatchIn(doc, Sections, pos)
  }

  /** The first-match rule: a result matches and nothing earlier does; no result means nothing matches. */
  lemma {:induction false} FirstMatchInSpec(doc: Document, ids: seq<string>, pos: int)
    ensures var r := FirstMatchIn(doc, ids, pos);
      (r.Some? ==> exists i :: (0 <= i < |ids| && ids[i] == r.value && Matches(doc, ids[i], pos)
                                && forall j :: 0 <= j < i ==> !Matches(doc, ids[j], pos)))
      && (r.None? <==> forall i :: 0 <= i < |ids| ==> !Matches(doc, ids[i], pos))
    decreases |ids|
  {
    if ids != [] {
      FirstMatchInSpec(doc, ids[1..], pos);
      var r := FirstMatchIn(doc, ids, pos);
      if !Matches(doc, ids[0], pos) {
        if r.Some? {
          var i :| 0 <= i < |ids[1..]| && ids[1..][i] == r.value && Matches(doc, ids[1..][i], pos)
            && forall j :: 0 <= j < i ==> !Matches(doc, ids[1..][j], pos);
          assert ids[i + 1] == r.value && Matches(doc, ids[i + 1], pos);
          forall j | 0 <= j < i + 1 ensures !Matches(doc, ids[j], pos) {
            if j > 0 {
              assert ids[j] == ids[1..][j - 1];
            }
          }
        }
        if r.None? {
          forall i | 0 <= i < |ids| ensures !Matches(doc, ids[i], pos) {
            if i > 0 {
              assert ids[i] == ids[1..][i - 1];
            }
          }
        }
      }
    }
  }

  /** The same rule over the three sections, written out. */
  lemma FirstMatchSpec(doc: Document, pos: int)
    ensures FirstMatch(doc, pos) == Some("hero") <==> Matches(doc, "hero", pos)
    ensures FirstMatch(doc, pos) == Some("projects") <==>
      !Matches(doc, "hero", pos) && Matches(doc, "projects", pos)
    ensures FirstMatch(doc, pos) == Some("contest") <==>
      !Matches(doc, "hero", pos) && !Matches(doc, "projects", pos) && Matches(doc, "contest", pos)
    ensures FirstMatch(doc, pos).None? <==>
      !Matches(doc, "hero", pos) && !Matches(doc, "projects", pos) && !Matches(doc, "contest", pos)
  {
    assert Sections[1..] == ["projects", "contest"];
    assert Sections[1..][1..] == ["contest"];
    assert Sections[1..][1..][1..] == [];
  }

  /** A section missing from the document never becomes active. */
  lemma MissingSectionSkipped(doc: Document, pos: int, id: string)
    requires id !in doc
    ensures FirstMatch(doc, pos) != Some(id)
  {
    FirstMatchInSpec(doc, Sections, pos);
  }

  /** The loop of `handleScroll` with its early `break`. */
  method FindActiveSection(doc: Document, scrollY: int) returns (found: Option<string>)
    ensures found == FirstMatch(doc, scrollY + 100)
  {
    var scrollPosition := scrollY + 100;
    found := None;
    var k := 0;
    while k < |Sections|
      invariant 0 <= k <= |Sections|
      invariant found.None? ==> FirstMatch(doc, scrollPosition) == FirstMatchIn(doc, Sections[k..], scrollPosition)
      invariant found.Some? ==> found == FirstMatch(doc, scrollPosition)
      decreases |Sections| - k, found.None?
    {
      var section := Sections[k];
      assert Sections[k..][1..] == Sections[k + 1..];
      if section in doc {
        var box := doc[section];
        if scrollPosition >= box.offsetTop && scrollPosition < box.offsetTop + box.offsetHeight {
          found := Some(section);
          break;
        }
      }
      k := k + 1;
    }
  }

  /** `isScrolled`, `activeSection`, `isMobileMenuOpen`. */
  datatype NavState = NavState(isScrolled: bool, activeSection: string, menuOpen: bool)

  const InitialNav := NavState(false, "hero", false)

  function AfterScroll(s: NavState, doc: Document, scrollY: int): (r: NavState)
    ensures r.isScrolled <==> scrollY > 50
    ensures r.menuOpen == s.menuOpen
    ensures FirstMatch(doc, scrollY + 100).None? ==> r.activeSection == s.activeSection
    ensures FirstMatch(doc, scrollY + 100).Some? ==> r.activeSection == FirstMatch(doc, scrollY + 100).value
  {
    var m := FirstMatch(doc, scrollY + 100);
    NavState(scrollY > 50, if m.Some? then m.value else s.activeSection, s.menuOpen)
  }

  /** The active section is always one of the three sections. */
  lemma {:induction false} FirstMatchInIds(doc: Document, ids: seq<string>, pos: int)
    ensures FirstMatchIn(doc, ids, pos).Some? ==> FirstMatchIn(doc, ids, pos).value in ids
    decreases |ids|
  {
    if ids != [] {
      FirstMatchInIds(doc, ids[1..], pos);
    }
  }

  lemma ScrollKeepsSectionKnown(s: NavState, doc: Document, scrollY: int)
    requires s.activeSection in Sections
    ensures AfterScroll(s, doc, scrollY).activeSection in Sections
  {
    FirstMatchInIds(doc, Sections, scrollY + 100);
  }

  /** `scrollToSection`: closes the menu only when the target exists. */
  function AfterScrollTo(s: NavState, doc: Document, id: string): (r: NavState)
    ensures id in doc ==> r == s.(menuOpen := false)
    ensures id !in doc ==> r == s
  {
    if id in doc then s.(menuOpen := false) else s
  }

  function AfterToggle(s: NavState): (r: NavState)
    ensures r.menuOpen == !s.menuOpen && r.isScrolled == s.isScrolled && r.activeSection == s.activeSection
  {
    s.(menuOpen := !s.menuOpen)
  }

  function AfterBackdrop(s: NavState): (r: NavState)
    ensures !r.menuOpen && r.isScrolled == s.isScrolled && r.activeSection == s.activeSection
  {
    s.(menuOpen := false)
  }

  /** Pressing the menu button twice restores the state; the backdrop is idempotent. */
  lemma MenuLaws(s: NavState)
    ensures AfterToggle(AfterToggle(s)) == s
    ensures AfterBackdrop(AfterBackdrop(s)) == AfterBackdrop(s)
    ensures s.menuOpen ==> AfterBackdrop(s) == AfterToggle(s)
  {
  }

  class NavigationBar {
    var isScrolled: bool
    var activeSection: string
    var isMobileMenuOpen: bool

    function Model(): NavState
      reads this
    {
      NavState(isScrolled, activeSection, isMobileMenuOpen)
    }

    constructor ()
      ensures Model() == InitialNav
    {
      isScrolled := false;
      activeSection := "hero";
      isMobileMenuOpen := false;
    }

    method HandleScroll(doc: Document, scrollY: int)
      modifies this
      ensures Model() == AfterScroll(old(Model()), doc, scrollY)
    {
      isScrolled := scrollY > 50;
      var found := FindActiveSection(doc, scrollY);
      if found.Some? {
        activeSection := found.value;
      }
    }

    /** Returns whether `scrollIntoView` was called. */
    method ScrollToSection(doc: Document, sectionId: string) returns (scrolled: bool)
      modifies this
      ensures scrolled <==> sectionId in doc
      ensures Model() == AfterScrollTo(old(Model()), doc, sectionId)
    {
      scrolled := sectionId in doc;
      if scrolled {
        isMobileMenuOpen := false;
      }
    }

    method ToggleMenu()
      modifies this
      ensures Model() == AfterToggle(old(Model()))
    {
      isMobileMenuOpen := !isMobileMenuOpen;
    }

    method CloseMenu()
      modifies this
      ensures Model() == AfterBackdrop(old(Model()))
    {
      isMobileMenuOpen := false;
    }
  }
}
