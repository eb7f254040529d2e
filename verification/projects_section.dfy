/**
  The public projects section (components/projects-section.tsx): the built-in
  project list split into featured and other projects, the alternating layout of
  featured cards, the compact technology badges of the other cards, and the
  cover shown when a project has no image.
 */
module ProjectsSection {
  import opened Wrappers
  import opened JsText
  import Lists

  datatype ShowcaseProject = ShowcaseProject(
    id: string,
    title: string,
    description: string,
    image: string,
    technologies: seq<string>,
    liveUrl: Field,
    githubUrl: Field,
    featured: bool)

  /** The list the section renders; it is built in, not fetched. */
  const BuiltIn: seq<ShowcaseProject> := [
    ShowcaseProject(
      "1",
      "E-Commerce Platform",
      "Full-stack e-commerce solution with modern UI and secure payment integration.",
      "/placeholder-project.jpg",
      ["React", "Node.js", "MongoDB"],
      Some("https://example.com"),
      Some("https://github.com/example"),
      true)
  ]

  predicate IsFeatured(p: ShowcaseProject)
  {
    p.featured
  }

  predicate IsOther(p: ShowcaseProject)
  {
    !p.featured
  }

  /** `projects.filter(project => project.featured)` */
  function Featured(ps: seq<ShowcaseProject>): (r: seq<ShowcaseProject>)
    ensures forall i :: 0 <= i < |r| ==> r[i].featured && r[i] in ps
    ensures forall i :: 0 <= i < |ps| && ps[i].featured ==> ps[i] in r
  {
    Lists.Filter(ps, IsFeatured)
  }

  /** `projects.filter(project => !project.featured)` */
  function Others(ps: seq<ShowcaseProject>): (r: seq<ShowcaseProject>)
    ensures forall i :: 0 <= i < |r| ==> !r[i].featured && r[i] in ps
    ensures forall i :: 0 <= i < |ps| && !ps[i].featured ==> ps[i] in r
  {
    Lists.Filter(ps, IsOther)
  }

  /**
    The two sections partition the list: every project appears in exactly one of
    them, as often as in the list, and neither section reorders projects.
   */
  lemma Partition(ps: seq<ShowcaseProject>)
    ensures multiset(Featured(ps)) + multiset(Others(ps)) == multiset(ps)
    ensures |Featured(ps)| + |Others(ps)| == |ps|
  {
    Lists.FilterComplement(ps, IsFeatured, IsOther);
  }

  /** Each section keeps the list's order: it distributes over concatenation. */
  lemma SectionsKeepOrder(a: seq<ShowcaseProject>, b: seq<ShowcaseProject>)
    ensures Featured(a + b) == Featured(a) + Featured(b)
    ensures Others(a + b) == Others(a) + Others(b)
  {
    Lists.FilterAppend(a, b, IsFeatured);
    Lists.FilterAppend(a, b, IsOther);
  }

  /** A section is rendered only when it has a project. */
  predicate ShowsFeatured(ps: seq<ShowcaseProject>)
  {
    |Featured(ps)| > 0
  }

  predicate ShowsOthers(ps: seq<ShowcaseProject>)
  {
    |Others(ps)| > 0
  }

  /** Each section is rendered exactly when some project belongs in it. */
  lemma SectionVisibility(ps: seq<ShowcaseProject>)
    ensures ShowsFeatured(ps) <==> exists i :: 0 <= i < |ps| && ps[i].featured
    ensures ShowsOthers(ps) <==> exists i :: 0 <= i < |ps| && !ps[i].featured
  {
    if ShowsFeatured(ps) {
      assert Featured(ps)[0] in ps;
    }
    if ShowsOthers(ps) {
      assert Others(ps)[0] in ps;
    }
  }

  /** A non-empty list always renders at least one of the two sections. */
  lemma SomeSectionShows(ps: seq<ShowcaseProject>)
    requires |ps| > 0
    ensures ShowsFeatured(ps) || ShowsOthers(ps)
  {
    Partition(ps);
  }

  /** The built-in list renders only the featured section, holding its one project. */
  lemma BuiltInLayout()
    ensures Featured(BuiltIn) == BuiltIn && Others(BuiltIn) == []
    ensures ShowsFeatured(BuiltIn) && !ShowsOthers(BuiltIn)
  {
    Lists.FilterAll(BuiltIn, IsFeatured);
    Partition(BuiltIn);
  }

  /** A featured card: its project, and whether its image sits on the left (`lg:col-start-1`). */
  datatype Card = Card(project: ShowcaseProject, mirrored: bool)

  /**
    The featured section, card by card: the featured projects in order, the card
    at every odd position of that list mirrored. Consecutive cards never share a
    layout, and the first card keeps its text on the left.
   */
  function FeaturedCards(ps: seq<ShowcaseProject>): (r: seq<Card>)
    ensures |r| == |Featured(ps)|
    ensures forall i :: 0 <= i < |r| ==> r[i].project == Featured(ps)[i] && r[i].project.featured
    ensures forall i :: 0 <= i < |r| - 1 ==> r[i].mirrored != r[i + 1].mirrored
    ensures |r| > 0 ==> !r[0].mirrored
  {
    Layout(Featured(ps))
  }

  /** `featured.map((project, index) => …)`: odd indices are mirrored. */
  function Layout(f: seq<ShowcaseProject>): seq<Card>
  {
    seq(|f|, i requires 0 <= i < |f| => Card(f[i], i % 2 == 1))
  }

  /**
    Projects that are not featured do not shift the layout: wherever one is
    inserted in the list, every featured card keeps its project and its side.
   */
  lemma OthersKeepLayout(a: seq<ShowcaseProject>, q: ShowcaseProject, b: seq<ShowcaseProject>)
    requires !q.featured
    ensures FeaturedCards(a + [q] + b) == FeaturedCards(a + b)
  {
    Lists.FilterSkip(a, q, b, IsFeatured);
  }


  /** The badges of a compact card: the first three technologies, then `+n` for the rest. */
  datatype Badges = Badges(shown: seq<string>, more: Option<nat>)

  /** `technologies.slice(0, 3)` and, when there are more than three, `+{length - 3}`. */
  function CompactBadges(techs: seq<string>): (r: Badges)
    ensures |r.shown| <= 3 && r.shown <= techs
    ensures |techs| <= 3 ==> r.shown == techs
    ensures r.more.Some? <==> |techs| > 3
    ensures |r.shown| + r.more.GetOr(0) == |techs|
  {
    if |techs| > 3 then Badges(techs[..3], Some(|techs| - 3)) else Badges(techs, None)
  }

  /** The shown badges and the hidden rest make up the whole list, and the count covers exactly the rest. */
  lemma BadgesCoverList(techs: seq<string>)
    ensures var b := CompactBadges(techs);
            b.shown + techs[|b.shown|..] == techs
            && |techs[|b.shown|..]| == b.more.GetOr(0)
  {
  }

  /** What a card's image area shows: the image, or the title's first character on a gradient. */
  datatype Cover = Picture(src: string) | Monogram(letter: string)

  function CoverOf(p: ShowcaseProject): (r: Cover)
    ensures r.Picture? <==> p.image != ""
    ensures r.Picture? ==> r.src == p.image
    ensures r.Monogram? ==> r.letter == FirstChar(p.title) && (r.letter == "" <==> p.title == "")
  {
    if p.image != "" then Picture(p.image) else Monogram(FirstChar(p.title))
  }

  /** The two link buttons: each appears only when its URL is a non-empty string. */
  datatype Links = Links(demo: Option<string>, source: Option<string>)

  function LinksOf(p: ShowcaseProject): (r: Links)
    ensures r.demo.Some? <==> Truthy(p.liveUrl)
    ensures r.source.Some? <==> Truthy(p.githubUrl)
    ensures r.demo.Some? ==> r.demo == p.liveUrl
    ensures r.source.Some? ==> r.source == p.githubUrl
  {
    Links(if Truthy(p.liveUrl) then p.liveUrl else None, if Truthy(p.githubUrl) then p.githubUrl else None)
  }
}
