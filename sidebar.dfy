/**
 * The financial sidebar's highlighting rule: the overview link is active only
 * on its own page, every other link on its page and everything below it.
 */
module Sidebar {
  import opened Text

  const Overview: string := "/financial_management"
  const ByNamePage: string := "/financial_management/by-name"
  const ReportsPage: string := "/financial_management/reports"
  const AddPage: string := "/financial_management/add"

  /** The four links, in the order the sidebar shows them. */
  const Links: seq<string> := [Overview, ByNamePage, ReportsPage, AddPage]

  /** `isActive(path)` for the current `pathname`. */
  predicate IsActive(pathname: string, path: string) {
    if path == Overview then pathname == Overview else StartsWith(pathname, path)
  }

  /** Whether a link is drawn highlighted; the overview link repeats the equality test. */
  predicate Highlighted(pathname: string, path: string) {
    if path == Overview then IsActive(pathname, path) && pathname == Overview
    else IsActive(pathname, path)
  }

  lemma OverviewActiveIffEqual(pathname: string)
    ensures Highlighted(pathname, Overview) <==> pathname == Overview
    ensures IsActive(pathname, Overview) <==> pathname == Overview
  {
  }

  /** Every other path is active on its page and on any page below it, and nowhere else. */
  lemma OtherActiveIffPrefix(pathname: string, path: string)
    requires path != Overview
    ensures Highlighted(pathname, path) <==> |path| <= |pathname| && pathname[..|path|] == path
  {
  }

  /** A page below the by-name page highlights the by-name link and not the overview. */
  lemma SubPageHighlightsByName()
    ensures Highlighted(ByNamePage + "/x", ByNamePage)
    ensures !Highlighted(ByNamePage + "/x", Overview)
  {
    assert (ByNamePage + "/x")[..|ByNamePage|] == ByNamePage;
    assert |ByNamePage + "/x"| != |Overview|;
  }

  /**
   * A page at or below a sub-page has that sub-page's marker, the character
   * after `/financial_management/`, which differs for all three.
   */
  lemma SubPageMarker(pathname: string, i: nat)
    requires 1 <= i < |Links|
    ensures StartsWith(pathname, Links[i]) ==> |pathname| > 22 && pathname[22] == Links[i][22]
  {
    if StartsWith(pathname, Links[i]) {
      assert pathname[22] == pathname[..|Links[i]|][22];
    }
  }

  /** Whatever the page, at most one of the four links is highlighted. */
  lemma AtMostOneHighlighted(pathname: string, i: nat, j: nat)
    requires i < j < |Links|
    ensures !(Highlighted(pathname, Links[i]) && Highlighted(pathname, Links[j]))
  {
    SubPageMarker(pathname, j);
    if i > 0 {
      SubPageMarker(pathname, i);
    }
  }
}
