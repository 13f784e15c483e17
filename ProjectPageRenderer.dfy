/**
 * The project detail page: what the `/projects/:slug` route does with its
 * slug, which link buttons the page shows, and the "More Projects" cards
 * with their truncated technology tags.
 */
module ProjectPageRenderer {
  import opened Wrappers
  import opened JsStrings
  import opened ProjectsConfig

  /** The outcome of the route: a redirect or the page of one configuration. */
  datatype Route = RedirectTo(path: string) | ProjectView(config: ProjectPageConfig)

  const ProjectsIndex := "/projects"
  const NotFoundPath := "/404"

  /**
   * The redirect decision: a missing or empty slug goes back to the project
   * index, a slug with no configuration to the not-found page, and any other
   * renders its configuration.
   */
  function Decide(slug: Option<string>): (r: Route)
    ensures !Truthy(slug) ==> r == RedirectTo(ProjectsIndex)
    ensures Truthy(slug) && slug.value !in GetAllProjectSlugs() ==> r == RedirectTo(NotFoundPath)
    ensures r.ProjectView? <==> Truthy(slug) && slug.value in GetAllProjectSlugs()
    ensures r.ProjectView? ==> Some(r.config) == GetProjectConfig(slug.value)
  {
    if !Truthy(slug) then RedirectTo(ProjectsIndex)
    else match GetProjectConfig(slug.value)
      case None => RedirectTo(NotFoundPath)
      case Some(config) => ProjectView(config)
  }

  /** The outcome with the lookup as written: an inherited built-in is rendered as if it were a config. */
  datatype RouteAsWritten = Redirect(path: string) | View(config: ProjectPageConfig) | BrokenView(inherited: string)

  function DecideAsWritten(slug: Option<string>): (r: RouteAsWritten)
    ensures r.BrokenView? <==> Truthy(slug) && slug.value in ObjectPrototypeMembers && slug.value !in GetAllProjectSlugs()
  {
    if !Truthy(slug) then Redirect(ProjectsIndex)
    else match GetProjectConfigAsWritten(slug.value)
      case None => Redirect(NotFoundPath)
      case Some(OwnConfig(config)) => View(config)
      case Some(Inherited(name)) => BrokenView(name)
  }

  // ------------------------------------------------------------- link buttons

  datatype LinkButton = LiveButton(href: string, caption: string) | SourceButton(href: string) | DemoButton(href: string)

  /** The live button's caption. */
  function LiveLabel(url: string): (r: string)
    ensures r == "Chrome Store" || r == "Visit Site"
    ensures r == "Chrome Store" <==> Includes(url, "chromewebstore")
  {
    if IndexOf(url, "chromewebstore").Some? then "Chrome Store" else "Visit Site"
  }

  /** The position of a button's kind in the Links section. */
  function Rank(b: LinkButton): nat {
    match b
    case LiveButton(_, _) => 0
    case SourceButton(_) => 1
    case DemoButton(_) => 2
  }

  /** The Links section: live, then source, then demo, each only when its link is a non-empty string. */
  function LinkButtons(links: Links): (r: seq<LinkButton>)
    ensures (exists i :: 0 <= i < |r| && r[i].LiveButton?) <==> Truthy(links.live)
    ensures (exists i :: 0 <= i < |r| && r[i].SourceButton?) <==> Truthy(links.github)
    ensures (exists i :: 0 <= i < |r| && r[i].DemoButton?) <==> Truthy(links.demo)
    ensures forall i, j :: 0 <= i < j < |r| ==> Rank(r[i]) < Rank(r[j])
    ensures forall i :: 0 <= i < |r| && r[i].LiveButton? ==>
              r[i] == LiveButton(links.live.value, LiveLabel(links.live.value))
    ensures forall i :: 0 <= i < |r| && r[i].SourceButton? ==> r[i].href == links.github.value
    ensures forall i :: 0 <= i < |r| && r[i].DemoButton? ==> r[i].href == links.demo.value
  {
    var live := if Truthy(links.live) then [LiveButton(links.live.value, LiveLabel(links.live.value))] else [];
    var source := if Truthy(links.github) then [SourceButton(links.github.value)] else [];
    var demo := if Truthy(links.demo) then [DemoButton(links.demo.value)] else [];
    var r := live + source + demo;
    assert Truthy(links.live) ==> r[0].LiveButton?;
    assert Truthy(links.github) ==> r[|live|].SourceButton?;
    assert Truthy(links.demo) ==> r[|live| + |source|].DemoButton?;
    r
  }

  // ------------------------------------------------------------ related cards

  /** `filter(p => p !== slug)` */
  function Without(xs: seq<string>, x: string): (r: seq<string>)
    ensures |r| <= |xs|
    ensures forall y :: y in r <==> y in xs && y != x
    ensures x !in xs ==> r == xs
  {
    if xs == [] then []
    else if xs[0] != x then [xs[0]] + Without(xs[1..], x)
    else Without(xs[1..], x)
  }

  /** `slice(0, n)` */
  function Take(xs: seq<string>, n: nat): (r: seq<string>)
    ensures |r| == if |xs| < n then |xs| else n
    ensures r == xs[..|r|]
  {
    if |xs| < n then xs else xs[..n]
  }

  /** The slugs of the "More Projects" cards: every page, registered or not, gets two. */
  function RelatedSlugs(slug: string): (r: seq<string>)
    ensures |r| == 2
    ensures slug !in r
    ensures forall y :: y in r ==> y in GetAllProjectSlugs()
  {
    var keys := GetAllProjectSlugs();
    KeysDistinct();
    SlugCount();
    WithoutLength(keys, slug);
    var w := Without(keys, slug);
    var r := Take(w, 2);
    assert forall y :: y in r ==> y in w by {
      forall y | y in r ensures y in w {
        var i :| 0 <= i < |r| && r[i] == y;
        assert w[i] == y;
      }
    }
    r
  }

  /** A card's tags: at most three, then "+N more" for the rest. */
  datatype TagRow = TagRow(shown: seq<string>, more: Option<nat>)

  function TechTags(techStack: seq<string>): (r: TagRow)
    ensures |r.shown| <= 3 && |r.shown| <= |techStack|
    ensures r.shown == techStack[..|r.shown|]
    ensures r.more.Some? <==> |techStack| > 3
    ensures |r.shown| + r.more.GetOr(0) == |techStack|
    ensures |techStack| > 3 ==> r == TagRow(techStack[..3], Some(|techStack| - 3))
    ensures |techStack| <= 3 ==> r == TagRow(techStack, None)
  {
    TagRow(Take(techStack, 3), if |techStack| > 3 then Some(|techStack| - 3) else None)
  }

  /** One "More Projects" card: its link target, title, description and tags. */
  datatype RelatedCard = RelatedCard(to: string, title: string, description: string, tags: TagRow)

  function RelatedCards(slug: string): (r: seq<RelatedCard>)
    ensures |r| == |RelatedSlugs(slug)|
    ensures forall i :: 0 <= i < |r| ==> r[i].to == "/projects/" + RelatedSlugs(slug)[i]
    ensures forall i :: 0 <= i < |r| ==>
              var c := GetProjectConfig(RelatedSlugs(slug)[i]).value;
              r[i].title == c.title && r[i].tags == TechTags(c.techStack)
  {
    var slugs := RelatedSlugs(slug);
    seq(|slugs|, i requires 0 <= i < |slugs| =>
      var c := GetProjectConfig(slugs[i]).value;
      RelatedCard("/projects/" + slugs[i], c.title, c.description, TechTags(c.techStack)))
  }

  // ---------------------------------------------------------------- lemmas

  /** Removing one value from a duplicate-free list removes one element if it is there, none otherwise. */
  lemma {:induction false} WithoutLength(xs: seq<string>, x: string)
    requires forall i, j :: 0 <= i < j < |xs| ==> xs[i] != xs[j]
    ensures |Without(xs, x)| == if x in xs then |xs| - 1 else |xs|
  {
    if xs != [] {
      var tail := xs[1..];
      assert forall i, j :: 0 <= i < j < |tail| ==> tail[i] != tail[j] by {
        forall i, j | 0 <= i < j < |tail| ensures tail[i] != tail[j] {
          assert tail[i] == xs[i + 1] && tail[j] == xs[j + 1];
        }
      }
      WithoutLength(tail, x);
      if xs[0] == x {
        assert x !in tail by {
          forall i | 0 <= i < |tail| ensures tail[i] != x {
            assert tail[i] == xs[i + 1];
          }
        }
      } else {
        assert x in xs <==> x in tail;
      }
    }
  }

  /** On a duplicate-free list, removing the element at `i` leaves the others in their order. */
  lemma {:induction false} WithoutDistinct(xs: seq<string>, i: nat)
    requires forall a, b :: 0 <= a < b < |xs| ==> xs[a] != xs[b]
    requires i < |xs|
    ensures Without(xs, xs[i]) == xs[..i] + xs[i + 1..]
  {
    var tail := xs[1..];
    if i == 0 {
      assert xs[0] !in tail by {
        forall k | 0 <= k < |tail| ensures tail[k] != xs[0] {
          assert tail[k] == xs[k + 1];
        }
      }
    } else {
      assert forall a, b :: 0 <= a < b < |tail| ==> tail[a] != tail[b] by {
        forall a, b | 0 <= a < b < |tail| ensures tail[a] != tail[b] {
          assert tail[a] == xs[a + 1] && tail[b] == xs[b + 1];
        }
      }
      WithoutDistinct(tail, i - 1);
      assert tail[i - 1] == xs[i];
      assert xs[0] != xs[i];
      assert tail[..i - 1] + tail[i..] == xs[1..i] + xs[i + 1..];
      assert xs[..i] == [xs[0]] + xs[1..i];
    }
  }

  /** There are nine project pages. */
  lemma SlugCount()
    ensures |GetAllProjectSlugs()| == 9
  {
  }

  /** On a duplicate-free list of three or more, the first two after dropping the element at `i`. */
  lemma FirstTwoOthers(xs: seq<string>, i: nat)
    requires forall a, b :: 0 <= a < b < |xs| ==> xs[a] != xs[b]
    requires 3 <= |xs| && i < |xs|
    ensures Take(Without(xs, xs[i]), 2) == if i == 0 then [xs[1], xs[2]]
                                           else if i == 1 then [xs[0], xs[2]]
                                           else [xs[0], xs[1]]
  {
    WithoutDistinct(xs, i);
    var w := xs[..i] + xs[i + 1..];
    if i == 0 {
      assert w[0] == xs[1] && w[1] == xs[2];
    } else if i == 1 {
      assert w[0] == xs[0] && w[1] == xs[2];
    } else {
      assert w[0] == xs[0] && w[1] == xs[1];
    }
    assert Take(w, 2) == [w[0], w[1]];
  }

  /**
   * The cards follow the key order: for the first key they are the second
   * and third keys, for the second key the first and third, and for every
   * other key the first two.
   */
  lemma RelatedByIndex(i: nat)
    requires i < |GetAllProjectSlugs()|
    ensures var keys := GetAllProjectSlugs();
            RelatedSlugs(keys[i]) == if i == 0 then [keys[1], keys[2]]
                                     else if i == 1 then [keys[0], keys[2]]
                                     else [keys[0], keys[1]]
  {
    KeysDistinct();
    SlugCount();
    FirstTwoOthers(GetAllProjectSlugs(), i);
  }

  /** A slug that is not a key gets the first two keys. */
  lemma RelatedForUnknownSlug(slug: string)
    requires slug !in GetAllProjectSlugs()
    ensures RelatedSlugs(slug) == [GetAllProjectSlugs()[0], GetAllProjectSlugs()[1]]
  {
    var keys := GetAllProjectSlugs();
    SlugCount();
    assert Take(keys, 2) == [keys[0], keys[1]];
  }

  /** Every registered key renders its own configuration. */
  lemma RegisteredSlugRenders(i: nat)
    requires i < |ProjectPagesConfig|
    ensures Decide(Some(GetAllProjectSlugs()[i])) == ProjectView(ProjectPagesConfig[i].1)
  {
    SlugResolves(i);
    assert GetAllProjectSlugs()[i] != "" by { SlugsListed(); }
  }

  /** The route as written breaks on "/projects/constructor", where the own-key decision redirects to the not-found page. */
  lemma ConstructorRouteBreaks()
    ensures DecideAsWritten(Some("constructor")) == BrokenView("constructor")
    ensures Decide(Some("constructor")) == RedirectTo(NotFoundPath)
  {
    ConstructorIsNotNull();
  }

  /** Away from the built-in names, the two decisions agree. */
  lemma DecisionsAgreeOffPrototype(slug: Option<string>)
    requires slug.None? || slug.value !in ObjectPrototypeMembers
    ensures Decide(slug).RedirectTo? ==> DecideAsWritten(slug) == Redirect(Decide(slug).path)
    ensures Decide(slug).ProjectView? ==> DecideAsWritten(slug) == View(Decide(slug).config)
  {
    if Truthy(slug) {
      AsWrittenAgreesOffPrototype(slug.value);
    }
  }

  /** A long stack shows three tags and counts the rest; a short one shows all. */
  lemma TechTagExamples()
    ensures TechTags(Applicare.techStack) == TagRow(["React (Vite)", "Spring Boot", "Ant Design"], Some(5))
    ensures TechTags(Typingss.techStack) == TagRow(Typingss.techStack, None)
  {
  }
}
