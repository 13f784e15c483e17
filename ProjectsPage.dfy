/**
 * The projects listing: seven project cards split into a featured and a
 * non-featured list, and the row of links under each card. Titles and
 * descriptions come from the translation tables and are represented by the
 * translation key.
 */
module ProjectsPage {
  import opened Wrappers
  import opened JsStrings
  import opened ProjectsConfig
  import opened ProjectPageRenderer

  datatype Project = Project(
    titleKey: string,
    image: string,
    link: Option<string>,
    github: Option<string>,
    tags: seq<string>,
    featured: bool,
    date: string,
    slug: Option<string>)

  const Projects: seq<Project> := [
    Project("mitmui", "/projects/mitm.png", None, Some("https://github.com/suryasarisa99/mitmui"),
            ["Flutter", "dart", "mitmproxy", "cross-platform"], true, "May 2025", Some("mitmui")),
    Project("expertLocation", "/projects/expert-loc.png", Some("https://sola.ysz.life"), Some("https://github.com/lyfe691/sola"),
            ["Portfolio", "shadcn/ui", "TypeScript", "React", "Vite", "Tailwind CSS", "SEO"], true, "Feb 2025 - Present",
            Some("expertLocation")),
    Project("dietEcap", "/projects/diet-ecap.png", None, Some("https://github.com/suryasarisa99/self"),
            ["Flutter", "dart", "mitmproxy", "cross-platform"], true, "May 2025", Some("dietEcap")),
    Project("onenovel", "/projects/onenovel.png", None, Some("https://github.com/lyfe691/self"),
            ["Neofetch", "Python", "Terminal", "Windows"], true, "May 2025", Some("onenovel")),
    Project("typingss", "/projects/typingss.png", None, Some("https://github.com/suryasarisa99/type"),
            ["React", "PWA", "speech-js"], true, "May 2025", Some("typingss")),
    Project("auth", "/projects/2fa.png", None, Some("https://github.com/suryasarisa99/auth"),
            ["React", "Express.Js", "Firebase", "MongoDB", "speakeasy", "PWA"], true, "May 2025", Some("auth")),
    Project("netmirror", "/projects/netmirror.png", Some("https://sola.ysz.life"), Some("https://github.com/lyfe691/sola"),
            ["Flutter", "Dart", "Mediakit", "Riverpod", "sqflite"], true, "Feb 2025 - Present", Some("netmirror"))
  ]

  /** `projects.filter(p => p.featured == featured)`, in array order. */
  function FilterFeatured(ps: seq<Project>, featured: bool): (r: seq<Project>)
    ensures |r| <= |ps|
    ensures forall i :: 0 <= i < |r| ==> r[i].featured == featured
  {
    if ps == [] then []
    else if ps[0].featured == featured then [ps[0]] + FilterFeatured(ps[1..], featured)
    else FilterFeatured(ps[1..], featured)
  }

  /** One control in a card's link row. */
  datatype LinkAction = ViewDetails(to: string) | GitHubButton(href: string) | VisitButton(href: string)

  /**
   * The link row: absent unless the project has a slug, a GitHub URL or a
   * link; with a slug, only "View Details" to its page; otherwise a GitHub
   * button and then a Visit button, each when its URL is present.
   */
  function LinkRow(p: Project): (r: Option<seq<LinkAction>>)
    ensures r.Some? <==> Truthy(p.slug) || Truthy(p.github) || Truthy(p.link)
    ensures Truthy(p.slug) ==> r == Some([ViewDetails("/projects/" + p.slug.value)])
    ensures !Truthy(p.slug) && r.Some? ==>
              |r.value| == (if Truthy(p.github) then 1 else 0) + (if Truthy(p.link) then 1 else 0)
    ensures !Truthy(p.slug) && r.Some? ==>
              forall i :: 0 <= i < |r.value| ==>
                (r.value[i].GitHubButton? && Truthy(p.github) && r.value[i].href == p.github.value)
                || (r.value[i].VisitButton? && Truthy(p.link) && r.value[i].href == p.link.value)
    ensures !Truthy(p.slug) && Truthy(p.github) ==> r.value[0] == GitHubButton(p.github.value)
    ensures !Truthy(p.slug) && Truthy(p.link) ==> r.value[|r.value| - 1] == VisitButton(p.link.value)
  {
    if !(Truthy(p.slug) || Truthy(p.github) || Truthy(p.link)) then None
    else if Truthy(p.slug) then Some([ViewDetails("/projects/" + p.slug.value)])
    else
      Some((if Truthy(p.github) then [GitHubButton(p.github.value)] else [])
           + (if Truthy(p.link) then [VisitButton(p.link.value)] else []))
  }

  // ---------------------------------------------------------------- lemmas

  lemma {:induction false} FilterMembers(ps: seq<Project>, featured: bool)
    ensures forall p :: p in FilterFeatured(ps, featured) <==> p in ps && p.featured == featured
  {
    if ps != [] {
      FilterMembers(ps[1..], featured);
    }
  }

  /** The featured and non-featured lists split the array: sizes add up and every project lands in exactly one. */
  lemma {:induction false} FeaturedPartition(ps: seq<Project>)
    ensures |FilterFeatured(ps, true)| + |FilterFeatured(ps, false)| == |ps|
    ensures multiset(FilterFeatured(ps, true)) + multiset(FilterFeatured(ps, false)) == multiset(ps)
  {
    if ps != [] {
      FeaturedPartition(ps[1..]);
      assert ps == [ps[0]] + ps[1..];
    }
  }

  /** With every project featured, the featured list is the whole array in order and the other list is empty. */
  lemma {:induction false} AllFeatured(ps: seq<Project>)
    requires forall i :: 0 <= i < |ps| ==> ps[i].featured
    ensures FilterFeatured(ps, true) == ps
    ensures FilterFeatured(ps, false) == []
  {
    if ps != [] {
      AllFeatured(ps[1..]);
    }
  }

  /** So on the page as published, the non-featured section is empty. */
  lemma PublishedListing()
    ensures FilterFeatured(Projects, true) == Projects
    ensures FilterFeatured(Projects, false) == []
  {
    AllFeatured(Projects);
  }

  /** Each listed slug is a registry key. */
  lemma ListedSlugRegistered(i: nat)
    requires i < |Projects|
    ensures Projects[i].slug.Some? && Projects[i].slug.value in GetAllProjectSlugs()
  {
    var keys := GetAllProjectSlugs();
    SlugsListed();
    if i == 0 { assert keys[1] == "mitmui"; }
    else if i == 1 { assert keys[0] == "expertLocation"; }
    else if i == 2 { assert keys[5] == "dietEcap"; }
    else if i == 3 { assert keys[8] == "onenovel"; }
    else if i == 4 { assert keys[3] == "typingss"; }
    else if i == 5 { assert keys[4] == "auth"; }
    else { assert keys[2] == "netmirror"; }
  }

  /**
   * Every card links to "View Details" of its own slug, and routing that slug
   * renders a project page rather than redirecting.
   */
  lemma ViewDetailsResolves(i: nat)
    requires i < |Projects|
    ensures LinkRow(Projects[i]) == Some([ViewDetails("/projects/" + Projects[i].slug.value)])
    ensures Decide(Projects[i].slug).ProjectView?
  {
    ListedSlugRegistered(i);
    assert Projects[i].slug.value != "";
  }
}
