/**
 * components/Projects.tsx: the "Projects" section of the home page, and the
 * slug lookup of app/projects/[slug]/page.tsx that its "View Details" links
 * lead to.
 *
 * A fixed list of slugs chooses and orders the projects shown; a second
 * list hides some of them; the first four are shown until "See More
 * Projects" is pressed, and "Show Less" folds the list again.
 */
module ProjectList {
  import opened Wrappers
  import opened Text
  import opened ProjectSchema
  import opened AssetPath
  import opened Seqs

  /** `INITIAL_PROJECTS_COUNT`. */
  const InitialProjectsCount: nat := 4

  /** `HIDDEN_PROJECTS`. */
  const HiddenProjects: seq<string> := [
    "whac-a-mole-embedded-game",
    "home-cnc-milling-machine",
    "additive-friction-stir-deposition",
    "meam5100-autonomous-robot"]

  /** `VISIBLE_PROJECT_ORDER`. */
  const VisibleProjectOrder: seq<string> := [
    "autonomous-maze-robot",
    "two-stage-gearbox-shaft-design",
    "mie346-design-assignments",
    "mie320-tensile-test",
    "barcelona-logo-projection",
    "dog-breed-classification-cnn"]

  /** The slugs of a list of projects, in order. */
  function Slugs(ps: seq<Project>): (r: seq<string>)
    ensures |r| == |ps|
    ensures forall i :: 0 <= i < |ps| ==> r[i] == ps[i].slug
  {
    if ps == [] then [] else [ps[0].slug] + Slugs(ps[1..])
  }

  /** Some project of `ps` carries `slug`. */
  predicate HasSlug(ps: seq<Project>, slug: string) {
    exists p :: p in ps && p.slug == slug
  }

  /** A slug occurs in the data exactly when it occurs in its list of slugs. */
  lemma HasSlugIff(ps: seq<Project>, slug: string)
    ensures HasSlug(ps, slug) <==> slug in Slugs(ps)
  {
    if slug in Slugs(ps) {
      var i :| 0 <= i < |ps| && Slugs(ps)[i] == slug;
      assert ps[i] in ps;
    }
  }

  /**
   * `ps.find(p => p.slug === slug)`: the FIRST project carrying the slug,
   * `None` (JavaScript's `undefined`) exactly when no project does.
   */
  function FindBySlug(ps: seq<Project>, slug: string): (r: Option<Project>)
    ensures r.None? <==> !HasSlug(ps, slug)
    ensures r.Some? ==> exists i :: 0 <= i < |ps| && ps[i] == r.value && slug !in Slugs(ps[..i])
    ensures r.Some? ==> r.value.slug == slug
  {
    if ps == [] then None
    else if ps[0].slug == slug then
      assert Slugs(ps[..0]) == [];
      Some(ps[0])
    else
      var r := FindBySlug(ps[1..], slug);
      if r.Some? then
        var i :| 0 <= i < |ps[1..]| && ps[1..][i] == r.value && slug !in Slugs(ps[1..][..i]);
        assert ps[1..][..i] == ps[..i + 1][1..];
        assert Slugs(ps[..i + 1]) == [ps[0].slug] + Slugs(ps[..i + 1][1..]);
        assert ps[i + 1] == r.value;
        r
      else
        r
  }

  /** With distinct slugs, looking up a project's own slug finds that very project. */
  lemma {:induction false} FindOwnSlug(ps: seq<Project>, i: nat)
    requires i < |ps|
    requires forall j, k :: 0 <= j < k < |ps| ==> ps[j].slug != ps[k].slug
    ensures FindBySlug(ps, ps[i].slug) == Some(ps[i])
  {
    var r := FindBySlug(ps, ps[i].slug);
    assert HasSlug(ps, ps[i].slug) by { assert ps[i] in ps; }
    var j :| 0 <= j < |ps| && ps[j] == r.value && ps[i].slug !in Slugs(ps[..j]);
    if j < i {
      assert ps[j].slug == ps[i].slug;
    }
  }

  /** `slug => ps.find(p => p.slug === slug) !== undefined`, as a test on slugs. */
  function Present(ps: seq<Project>): (f: string -> bool)
    ensures forall s :: f(s) == HasSlug(ps, s)
  {
    (s: string) => HasSlug(ps, s)
  }

  /**
   * `VISIBLE_PROJECT_ORDER.map(slug => find(slug)).filter(p => p !== undefined)`:
   * the projects named by `order`, in the order of `order`, slugs that match
   * no project skipped.
   */
  function ResolveOrder(order: seq<string>, ps: seq<Project>): (r: seq<Project>)
    ensures |r| <= |order|
    ensures forall p :: p in r ==> p in ps && p.slug in order
    ensures forall s :: s in order ==> (s in Slugs(r) <==> HasSlug(ps, s))
    ensures (forall s :: s in order ==> HasSlug(ps, s)) ==> Slugs(r) == order
  {
    if order == [] then []
    else
      var rest := ResolveOrder(order[1..], ps);
      var found := FindBySlug(ps, order[0]);
      var r := if found.Some? then [found.value] + rest else rest;
      assert found.Some? ==> Slugs(r) == [order[0]] + Slugs(rest);
      assert forall s :: s in order ==> s == order[0] || s in order[1..];
      assert found.Some? ==> found.value in ps by {
        if found.Some? {
          var i :| 0 <= i < |ps| && ps[i] == found.value && order[0] !in Slugs(ps[..i]);
        }
      }
      r
  }

  /**
   * The resolved list, whatever slugs are missing: its slugs are the order
   * with the slugs no project carries dropped.
   */
  lemma {:induction false} ResolveOrderFilters(order: seq<string>, ps: seq<Project>)
    ensures Slugs(ResolveOrder(order, ps)) == Filter(order, Present(ps))
  {
    if order != [] {
      ResolveOrderFilters(order[1..], ps);
      var rest := ResolveOrder(order[1..], ps);
      var found := FindBySlug(ps, order[0]);
      if found.Some? {
        SlugsCons(found.value, rest);
        assert Present(ps)(order[0]);
      } else {
        assert !Present(ps)(order[0]);
      }
    }
  }

  /** The slugs of a list with one project in front. */
  lemma SlugsCons(p: Project, rest: seq<Project>)
    ensures Slugs([p] + rest) == [p.slug] + Slugs(rest)
  {
    assert ([p] + rest)[1..] == rest;
  }

  /** Every entry of `r` is the first project in `ps` carrying its slug. */
  predicate FirstMatches(ps: seq<Project>, r: seq<Project>)
  {
    forall i :: 0 <= i < |r| ==> FindBySlug(ps, r[i].slug) == Some(r[i])
  }

  /** Prepending a first match keeps a list of first matches. */
  lemma ConsFirstMatch(ps: seq<Project>, p: Project, rest: seq<Project>)
    requires FindBySlug(ps, p.slug) == Some(p)
    requires FirstMatches(ps, rest)
    ensures FirstMatches(ps, [p] + rest)
  {
    var r := [p] + rest;
    forall i | 0 <= i < |r| ensures FindBySlug(ps, r[i].slug) == Some(r[i]) {
      if i > 0 {
        assert r[i] == rest[i - 1];
      }
    }
  }

  /** Each entry of the resolved list is the first project carrying its slug. */
  lemma {:induction false} ResolveOrderFirstMatch(order: seq<string>, ps: seq<Project>)
    ensures FirstMatches(ps, ResolveOrder(order, ps))
  {
    if order != [] {
      ResolveOrderFirstMatch(order[1..], ps);
      var found := FindBySlug(ps, order[0]);
      if found.Some? {
        ConsFirstMatch(ps, found.value, ResolveOrder(order[1..], ps));
      }
    }
  }

  /** `p => !hidden.includes(p.slug)`. */
  function Kept(hidden: seq<string>): (f: Project -> bool)
    ensures forall p :: f(p) == (p.slug !in hidden)
  {
    (p: Project) => p.slug !in hidden
  }

  /** `slug => !hidden.includes(slug)`, the same test on slugs. */
  function NotHidden(hidden: seq<string>): (f: string -> bool)
    ensures forall s :: f(s) == (s !in hidden)
  {
    (s: string) => s !in hidden
  }

  /** `ps.filter(p => !hidden.includes(p.slug))`, keeping the order. */
  function WithoutHidden(ps: seq<Project>, hidden: seq<string>): (r: seq<Project>)
    ensures forall p :: p in r <==> p in ps && p.slug !in hidden
    ensures |r| <= |ps|
    ensures (forall p :: p in ps ==> p.slug !in hidden) ==> r == ps
  {
    assert (forall p :: p in ps ==> Kept(hidden)(p)) ==> Filter(ps, Kept(hidden)) == ps by {
      if forall p :: p in ps ==> Kept(hidden)(p) {
        FilterAll(ps, Kept(hidden));
      }
    }
    Filter(ps, Kept(hidden))
  }

  /** Removing hidden projects removes exactly the hidden slugs from the slug list, in order. */
  lemma {:induction false} SlugsWithoutHidden(ps: seq<Project>, hidden: seq<string>)
    ensures Slugs(WithoutHidden(ps, hidden)) == Filter(Slugs(ps), NotHidden(hidden))
  {
    if ps != [] {
      SlugsWithoutHidden(ps[1..], hidden);
      var head := if ps[0].slug !in hidden then [ps[0]] else [];
      assert WithoutHidden(ps, hidden) == head + WithoutHidden(ps[1..], hidden);
      assert Slugs(ps) == [ps[0].slug] + Slugs(ps[1..]);
      assert Slugs(ps)[1..] == Slugs(ps[1..]);
      SlugsAppend(head, WithoutHidden(ps[1..], hidden));
    }
  }

  /** The slugs of a concatenation. */
  lemma {:induction false} SlugsAppend(a: seq<Project>, b: seq<Project>)
    ensures Slugs(a + b) == Slugs(a) + Slugs(b)
  {
    if a != [] {
      SlugsAppend(a[1..], b);
      assert (a + b)[1..] == a[1..] + b;
    } else {
      assert a + b == b;
    }
  }

  /** `visibleProjects`: the ordered projects, hidden slugs removed. */
  function VisibleProjects(ps: seq<Project>): (r: seq<Project>)
    ensures Slugs(r) == Filter(Filter(VisibleProjectOrder, Present(ps)), NotHidden(HiddenProjects))
  {
    var resolved := ResolveOrder(VisibleProjectOrder, ps);
    ResolveOrderFilters(VisibleProjectOrder, ps);
    SlugsWithoutHidden(resolved, HiddenProjects);
    WithoutHidden(resolved, HiddenProjects)
  }

  /** The membership rule of the list: listed in the order, not hidden, and present in the data. */
  lemma VisibleIff(ps: seq<Project>, p: Project)
    ensures p in VisibleProjects(ps) ==> p in ps && p.slug in VisibleProjectOrder && p.slug !in HiddenProjects
    ensures p in VisibleProjects(ps) <==> p in ResolveOrder(VisibleProjectOrder, ps) && p.slug !in HiddenProjects
  {
  }

  /**
   * When every slug of the order names a project, all of them are listed, in
   * that order: none of the ordered slugs is hidden.
   */
  lemma {:induction false} AllOrderedVisible(ps: seq<Project>)
    requires forall s :: s in VisibleProjectOrder ==> s in Slugs(ps)
    ensures Slugs(VisibleProjects(ps)) == VisibleProjectOrder
  {
    forall s | s in VisibleProjectOrder ensures HasSlug(ps, s) {
      HasSlugIff(ps, s);
    }
    var r := ResolveOrder(VisibleProjectOrder, ps);
    OrderedNotHidden();
    assert forall p :: p in r ==> p.slug !in HiddenProjects;
  }

  /** No slug of the display order is also hidden. */
  lemma OrderedNotHidden()
    ensures forall s :: s in VisibleProjectOrder ==> s !in HiddenProjects
  {
  }

  /** `showAll ? visibleProjects : visibleProjects.slice(0, INITIAL_PROJECTS_COUNT)`. */
  function DisplayedProjects(visible: seq<Project>, showAll: bool): (r: seq<Project>)
    ensures |r| <= |visible| && r == visible[..|r|]
    ensures showAll ==> r == visible
    ensures !showAll ==> |r| == if |visible| < InitialProjectsCount then |visible| else InitialProjectsCount
  {
    if showAll || |visible| <= InitialProjectsCount then visible else visible[..InitialProjectsCount]
  }

  /** `hasMoreProjects`. */
  predicate HasMoreProjects(visible: seq<Project>) {
    |visible| > InitialProjectsCount
  }

  /** The "See More Projects" button is rendered. */
  predicate SeeMoreShown(visible: seq<Project>, showAll: bool) {
    HasMoreProjects(visible) && !showAll
  }

  /** The "Show Less" button is rendered. */
  predicate ShowLessShown(visible: seq<Project>, showAll: bool) {
    showAll && HasMoreProjects(visible)
  }

  /**
   * Never both buttons; one of them exactly when there are more than four
   * projects; and whenever a project is left off the page, "See More" is there
   * to reach it.
   */
  lemma ButtonsConsistent(visible: seq<Project>, showAll: bool)
    ensures !(SeeMoreShown(visible, showAll) && ShowLessShown(visible, showAll))
    ensures SeeMoreShown(visible, showAll) || ShowLessShown(visible, showAll) <==> HasMoreProjects(visible)
    ensures DisplayedProjects(visible, showAll) != visible <==> SeeMoreShown(visible, showAll)
  {
  }

  /** `project.technologies.slice(0, 5)`: the chips on a card. */
  function CardChips(technologies: seq<string>): (r: seq<string>)
    ensures |r| <= |technologies| && r == technologies[..|r|]
    ensures |r| == if |technologies| < 5 then |technologies| else 5
  {
    if |technologies| <= 5 then technologies else technologies[..5]
  }

  /** The `+{n - 5} more` badge, present only for more than five technologies. */
  function MoreBadge(technologies: seq<string>): (r: Option<string>)
    ensures r.Some? <==> |technologies| > 5
  {
    if |technologies| > 5 then Some("+" + NatToString(|technologies| - 5) + " more") else None
  }

  /** The count printed in the badge is exactly the number of technologies without a chip. */
  lemma {:induction false} BadgeCountsTheRest(technologies: seq<string>, k: nat)
    requires MoreBadge(technologies) == Some("+" + NatToString(k) + " more")
    ensures |CardChips(technologies)| + k == |technologies|
  {
    var n := |technologies| - 5;
    var a := "+" + NatToString(n) + " more";
    var b := "+" + NatToString(k) + " more";
    assert a == b;
    assert |NatToString(n)| == |NatToString(k)|;
    assert NatToString(n) == a[1..|a| - 5];
    assert NatToString(k) == b[1..|b| - 5];
    NatToStringInjective(n, k);
  }

  /** What one project card shows. */
  datatype Card = Card(
    href: string,
    imageUrl: string,
    title: string,
    description: string,
    chips: seq<string>,
    badge: Option<string>,
    codeLink: Option<string>)

  /** The card of project `p` under the base path `basePath`. */
  function ProjectCard(basePath: string, p: Project): (c: Card)
    ensures c.codeLink.Some? <==> Truthy(p.githubUrl)
    ensures c.href == "/projects/" + p.slug
    ensures StartsWith(p.image, "/") ==> c.imageUrl == basePath + p.image
  {
    Card(
      href := "/projects/" + p.slug,
      imageUrl := GetAssetPath(basePath, p.image),
      title := p.title,
      description := p.shortDescription,
      chips := CardChips(p.technologies),
      badge := MoreBadge(p.technologies),
      codeLink := if Truthy(p.githubUrl) then p.githubUrl else None)
  }

  /**
   * The detail page reads the slug back from the link of a card and looks it
   * up; with distinct slugs it finds the very project the card shows.
   */
  lemma CardLinkResolves(basePath: string, ps: seq<Project>, i: nat)
    requires i < |ps|
    requires forall j, k :: 0 <= j < k < |ps| ==> ps[j].slug != ps[k].slug
    ensures var href := ProjectCard(basePath, ps[i]).href;
      StartsWith(href, "/projects/") && FindBySlug(ps, href[|"/projects/"|..]) == Some(ps[i])
  {
    var href := ProjectCard(basePath, ps[i]).href;
    assert href[|"/projects/"|..] == ps[i].slug;
    assert href[..|"/projects/"|] == "/projects/";
    FindOwnSlug(ps, i);
  }

  /** The state of the section: whether the whole list is unfolded. */
  class ProjectsSection {
    /** `visibleProjects`, fixed once the data is known. */
    const visible: seq<Project>
    /** `showAll`. */
    var showAll: bool

    /** The section as first rendered: folded. */
    constructor (ps: seq<Project>)
      ensures visible == VisibleProjects(ps) && !showAll
    {
      visible := VisibleProjects(ps);
      showAll := false;
    }

    /** The cards on screen. */
    function Displayed(): seq<Project>
      reads this
    {
      DisplayedProjects(visible, showAll)
    }

    /** The "See More Projects" button: `setShowAll(true)`. */
    method SeeMore()
      modifies this
      ensures showAll
      ensures Displayed() == visible
    {
      showAll := true;
    }

    /** The "Show Less" button: `setShowAll(false)` (the page scroll is not modelled). */
    method ShowLess()
      modifies this
      ensures !showAll
      ensures |Displayed()| <= InitialProjectsCount
    {
      showAll := false;
    }
  }

  /** Unfolding and then folding again puts the same cards back. */
  method SeeMoreThenShowLess(s: ProjectsSection)
    modifies s
    ensures !s.showAll && s.Displayed() == DisplayedProjects(s.visible, false)
    ensures !old(s.showAll) ==> s.Displayed() == old(s.Displayed())
  {
    s.SeeMore();
    s.ShowLess();
  }
}
