/** The navigation sidebar: five items highlighted by a path-prefix rule, and a
    Settings link highlighted on its exact path. */
module Sidebar {
  import opened Strings

  datatype NavItem = NavItem(caption: string, path: string)

  const NavItems: seq<NavItem> := [
    NavItem("Dashboard", "/"),
    NavItem("Jobs", "/jobs"),
    NavItem("Documents", "/documents"),
    NavItem("Billing", "/billing"),
    NavItem("Reports", "/reports")]

  /** Exact match, or a plain string prefix for every path other than the root. */
  predicate IsActive(pathname: string, path: string)
  {
    pathname == path || (path != "/" && IsPrefix(path, pathname))
  }

  predicate SettingsActive(pathname: string)
  {
    pathname == "/settings"
  }

  /** The root item is active only on the root itself. */
  lemma DashboardOnlyOnRoot(pathname: string)
    ensures IsActive(pathname, "/") <==> pathname == "/"
  {
  }

  /** The prefix test has no segment boundary: detail pages and any longer path starting
      with "/jobs" highlight Jobs. */
  lemma JobsPrefixRule()
    ensures IsActive("/jobs/JOB-2024-001", "/jobs")
    ensures IsActive("/jobsarchive", "/jobs")
    ensures !IsActive("/job", "/jobs")
  {
    assert "/jobs/JOB-2024-001"[..5] == "/jobs";
    assert "/jobsarchive"[..5] == "/jobs";
  }

  /** The nav item a location can highlight, told apart by the character after the
      leading slash, since the four non-root paths all differ there; -1 for none. */
  function CandidateIndex(pathname: string): (k: int)
    ensures -1 <= k < |NavItems|
  {
    if pathname == "/" then 0
    else if |pathname| < 2 then -1
    else if pathname[1] == 'j' then 1
    else if pathname[1] == 'd' then 2
    else if pathname[1] == 'b' then 3
    else if pathname[1] == 'r' then 4
    else -1
  }

  /** An active item is always the candidate of its location. */
  lemma ActiveIsCandidate(pathname: string, i: int)
    requires 0 <= i < |NavItems|
    ensures IsActive(pathname, NavItems[i].path) ==> i == CandidateIndex(pathname)
  {
    var p := NavItems[i].path;
    if i != 0 && IsActive(pathname, p) {
      assert |p| >= 2 && p[1] == pathname[..|p|][1];
    }
  }

  /** Whatever the location, at most one of the five items is highlighted. */
  lemma AtMostOneActive(pathname: string, i: int, j: int)
    requires 0 <= i < |NavItems| && 0 <= j < |NavItems|
    requires IsActive(pathname, NavItems[i].path) && IsActive(pathname, NavItems[j].path)
    ensures i == j
  {
    ActiveIsCandidate(pathname, i);
    ActiveIsCandidate(pathname, j);
  }

  /** Settings is highlighted on its exact path and nowhere else; there no nav item is. */
  lemma SettingsExact(pathname: string)
    ensures SettingsActive(pathname) <==> pathname == "/settings"
    ensures SettingsActive(pathname) ==> forall i :: 0 <= i < |NavItems| ==> !IsActive(pathname, NavItems[i].path)
  {
    forall i | 0 <= i < |NavItems|
      ensures IsActive(pathname, NavItems[i].path) ==> i == CandidateIndex(pathname)
    {
      ActiveIsCandidate(pathname, i);
    }
  }
}
