/**
 * Which routes render the floating toggles and which render the footer:
 * exact matches against a short hide list, plus every project detail page.
 */
module Conditionals {
  import opened JsStrings

  const HideTogglesOn: seq<string> := ["/a", "/404"]
  const HideFooterOn: seq<string> := ["/", "*", "/404", "/a"]
  const ProjectPrefix := "/projects/"

  /** `isProjectPage`, both conjuncts as written; the second never decides anything. */
  predicate IsProjectPage(pathname: string): (b: bool)
    ensures b <==> StartsWith(pathname, ProjectPrefix)
  {
    assert pathname == "/projects" ==> |pathname| < |ProjectPrefix|;
    StartsWith(pathname, ProjectPrefix) && pathname != "/projects"
  }

  /** `shouldRender` of the toggles. */
  function ShowToggles(pathname: string): (r: bool)
    ensures r <==> pathname != "/a" && pathname != "/404" && !StartsWith(pathname, ProjectPrefix)
  {
    pathname !in HideTogglesOn && !IsProjectPage(pathname)
  }

  /** `shouldRender` of the footer. */
  function ShowFooter(pathname: string): (r: bool)
    ensures r <==> pathname != "/" && pathname != "*" && pathname != "/404" && pathname != "/a"
                   && !StartsWith(pathname, ProjectPrefix)
  {
    pathname !in HideFooterOn && !IsProjectPage(pathname)
  }

  // ---------------------------------------------------------------- lemmas

  /** Wherever the footer renders, the toggles do too. */
  lemma FooterImpliesToggles(pathname: string)
    ensures ShowFooter(pathname) ==> ShowToggles(pathname)
  {
  }

  /** The footer and toggle rules differ exactly on "/" and "*". */
  lemma TogglesWithoutFooter(pathname: string)
    ensures (ShowToggles(pathname) && !ShowFooter(pathname)) <==> (pathname == "/" || pathname == "*")
  {
    if pathname == "/" || pathname == "*" {
      assert !StartsWith(pathname, ProjectPrefix);
    }
  }

  /** The project index renders both; a project page neither. */
  lemma ProjectsIndexAndPages(slug: string)
    ensures ShowToggles("/projects") && ShowFooter("/projects")
    ensures !ShowToggles(ProjectPrefix + slug) && !ShowFooter(ProjectPrefix + slug)
  {
    assert !StartsWith("/projects", ProjectPrefix);
    assert (ProjectPrefix + slug)[..|ProjectPrefix|] == ProjectPrefix;
  }

  /** Matching is exact: a trailing slash escapes the hide list. */
  lemma NoNormalisation()
    ensures ShowToggles("/a/") && ShowFooter("/a/")
    ensures ShowToggles("/404/") && ShowFooter("/404/")
  {
    assert !StartsWith("/a/", ProjectPrefix);
    assert !StartsWith("/404/", ProjectPrefix);
  }
}
