/**
 * The public projects grid (`ProjectsSection`): the category buttons with
 * their counts, the category filter, the order sort, the first-six paging
 * with its "view more" toggle, and the empty-state message. The admin list
 * and the dashboard sort projects by the same rule.
 */
module ProjectsSection {
  import opened Wrappers
  import opened Types
  import Ordering

  /** The catch-all category. */
  const All := "all"

  /** Projects shown before "view more". */
  const PageSize := 6

  /** `order || 99`: a missing or zero order sorts as 99. */
  function ProjectKey(p: Project): (k: int)
    ensures p.order.None? || p.order == Some(0) ==> k == 99
    ensures p.order.Some? && p.order.value != 0 ==> k == p.order.value
  {
    match p.order
    case None => 99
    case Some(o) => if o == 0 then 99 else o
  }

  /** `['all', ...(projectCategories || [])]`. */
  function Categories(config: SiteConfig): (r: seq<string>)
    ensures |r| >= 1 && r[0] == All
    ensures config.projectCategories.None? ==> r == [All]
    ensures config.projectCategories.Some? ==> r[1..] == config.projectCategories.value
  {
    [All] + config.projectCategories.GetOr([])
  }

  /** `projects.filter(p => p.category === cat)`. */
  function OfCategory(ps: seq<Project>, cat: string): (r: seq<Project>)
    ensures |r| <= |ps|
    ensures forall p :: multiset(r)[p] == if p.category == cat then multiset(ps)[p] else 0
  {
    if ps == [] then []
    else
      assert ps == [ps[0]] + ps[1..];
      (if ps[0].category == cat then [ps[0]] else []) + OfCategory(ps[1..], cat)
  }

  /** The projects under the active category: all of them for 'all', otherwise those of that category. */
  function Filtered(ps: seq<Project>, active: string): (r: seq<Project>)
    ensures active == All ==> r == ps
    ensures active != All ==> forall p :: p in r <==> p in ps && p.category == active
  {
    if active == All then ps else OfCategory(ps, active)
  }

  /** The filtered projects sorted by `order || 99`: the same projects, in non-decreasing key order. */
  function SortedProjects(ps: seq<Project>, active: string): (r: seq<Project>)
    ensures multiset(r) == multiset(Filtered(ps, active))
    ensures Ordering.SortedBy(r, ProjectKey)
  {
    Ordering.Sort(Filtered(ps, active), ProjectKey)
  }

  /** The badge of a category button. */
  function CategoryCount(ps: seq<Project>, cat: string): (n: nat)
    ensures n <= |ps|
    ensures n == |Filtered(ps, cat)|
  {
    if cat == All then |ps| else |OfCategory(ps, cat)|
  }

  /** The badge counts what choosing the category shows, before paging. */
  lemma CountIsWhatIsShown(ps: seq<Project>, cat: string)
    ensures CategoryCount(ps, cat) == |SortedProjects(ps, cat)|
    ensures cat == All ==> CategoryCount(ps, cat) == |ps|
  {
    var r := SortedProjects(ps, cat);
    assert |r| == |multiset(r)| == |multiset(Filtered(ps, cat))| == |Filtered(ps, cat)|;
  }

  /** `showAllProjects ? sorted : sorted.slice(0, 6)`. */
  function Shown(sorted: seq<Project>, showAll: bool): (r: seq<Project>)
    ensures r <= sorted
    ensures showAll ==> r == sorted
    ensures !showAll ==> |r| == if |sorted| < PageSize then |sorted| else PageSize
  {
    if showAll || |sorted| <= PageSize then sorted else sorted[..PageSize]
  }

  /** The "view more" button is there when the sorted list is longer than a page. */
  predicate ViewMoreVisible(sorted: seq<Project>): (b: bool)
    ensures b <==> |Shown(sorted, false)| < |sorted|
  {
    |sorted| > PageSize
  }

  /** Without the button nothing is hidden; with it, the collapsed grid hides the projects past the first page. */
  lemma PagingHidesOnlyWithButton(sorted: seq<Project>, showAll: bool)
    ensures !ViewMoreVisible(sorted) ==> Shown(sorted, showAll) == sorted
    ensures ViewMoreVisible(sorted) && !showAll ==> |Shown(sorted, showAll)| == PageSize < |sorted|
  {
  }

  /** "No projects in this category yet." shows once the projects have loaded and the sorted list is empty. */
  predicate EmptyState(projectsLoaded: bool, sorted: seq<Project>): (b: bool)
    ensures b <==> projectsLoaded && Shown(sorted, false) == [] && Shown(sorted, true) == []
  {
    projectsLoaded && |sorted| == 0
  }

  /** Under 'all' the empty state means the store has no projects at all. */
  lemma EmptyStateUnderAll(ps: seq<Project>, projectsLoaded: bool)
    ensures EmptyState(projectsLoaded, SortedProjects(ps, All)) <==> projectsLoaded && ps == []
  {
    var r := SortedProjects(ps, All);
    assert |r| == |multiset(r)| == |multiset(ps)| == |ps|;
  }

  /** The section's own state: the active category and whether the grid is expanded. */
  datatype SectionView = SectionView(activeCategory: string, showAllProjects: bool)

  const InitialView := SectionView(All, false)

  /** A category button: selects the category and collapses the grid. */
  function SelectCategory(v: SectionView, cat: string): (r: SectionView)
    ensures r.activeCategory == cat && !r.showAllProjects
  {
    SectionView(cat, false)
  }

  /** The "view more" / "view less" button. */
  function ToggleShowAll(v: SectionView): (r: SectionView)
    ensures r.activeCategory == v.activeCategory && r.showAllProjects != v.showAllProjects
  {
    v.(showAllProjects := !v.showAllProjects)
  }

  /** The projects on screen for a view. */
  function ShownProjects(ps: seq<Project>, v: SectionView): (r: seq<Project>)
    ensures r <= SortedProjects(ps, v.activeCategory)
    ensures v.showAllProjects ==> r == SortedProjects(ps, v.activeCategory)
    ensures !v.showAllProjects ==> |r| <= PageSize
  {
    Shown(SortedProjects(ps, v.activeCategory), v.showAllProjects)
  }

  /** Right after a category is chosen, the grid shows at most one page, and exactly the first projects of that category in order. */
  lemma SelectShowsFirstPage(ps: seq<Project>, v: SectionView, cat: string)
    ensures var shown := ShownProjects(ps, SelectCategory(v, cat));
      && |shown| <= PageSize
      && shown <= SortedProjects(ps, cat)
      && forall p :: p in shown ==> p in ps && (cat == All || p.category == cat)
  {
    var sorted := SortedProjects(ps, cat);
    var shown := ShownProjects(ps, SelectCategory(v, cat));
    forall p | p in shown
      ensures p in ps && (cat == All || p.category == cat)
    {
      assert p in multiset(sorted);
    }
  }
}
