/**
 * The admin projects panel (`AdminProjects`): the project form, which edits
 * the technologies as one comma-separated line and the features as one line
 * each, the filtered and sorted list, the drag-to-reorder list with its
 * renumbering, and the save and delete handlers.
 */
module AdminProjects {
  import opened Wrappers
  import opened Types
  import opened Strings
  import Ordering
  import opened Remote
  import opened ProjectsSection
  import PortfolioStore
  import Toast

  /** `projectCategories || ['web', 'mobile']`: an array is truthy even when empty, so a configured empty list stays empty. */
  function FormCategories(config: SiteConfig): (r: seq<string>)
    ensures config.projectCategories.None? ==> r == ["web", "mobile"]
    ensures config.projectCategories.Some? ==> r == config.projectCategories.value
  {
    config.projectCategories.GetOr(["web", "mobile"])
  }

  /**
   * The form's state: the project's fields, with the optional ones filled
   * from `EMPTY_PROJECT`, and its two lists as text. A new project has no id.
   */
  datatype ProjectForm = ProjectForm(
    id: Option<string>,
    title: string,
    tech: string,
    desc: string,
    url: string,
    githubUrl: string,
    category: string,
    year: string,
    image: string,
    featured: bool,
    order: int,
    status: string,
    role: string,
    technologiesStr: string,
    featuresStr: string)

  /**
   * The form opened on a project, or on nothing for a new one: the fields of
   * `EMPTY_PROJECT` (with `year` the current year) and the first configured
   * category, overridden by whatever the project has.
   */
  function InitForm(project: Option<Project>, config: SiteConfig, year: string): (f: ProjectForm)
    ensures project.None? ==> && f.id.None? && f.order == 999 && !f.featured && f.year == year
                              && f.status == "" && f.role == "" && f.technologiesStr == "" && f.featuresStr == ""
    ensures project.None? ==> f.title == f.tech == f.desc == f.url == f.githubUrl == f.image == ""
    ensures project.None? && config.projectCategories.None? ==> f.category == "web"
    ensures project.None? && config.projectCategories == Some([]) ==> f.category == ""
    ensures project.None? && config.projectCategories.Some? && config.projectCategories.value != [] ==>
              f.category == config.projectCategories.value[0]
    ensures project.Some? ==> f.id == Some(project.value.id) && f.category == project.value.category
  {
    var cats := FormCategories(config);
    match project
    case None =>
      ProjectForm(None, "", "", "", "", "", Or(if |cats| > 0 then cats[0] else "", ""), year, "",
                  false, 999, "", "", "", "")
    case Some(p) =>
      ProjectForm(Some(p.id), p.title, p.tech, p.desc, p.url, p.githubUrl, p.category, p.year, p.image,
                  p.featured.GetOr(false), p.order.GetOr(999), p.status.GetOr(""), p.role.GetOr(""),
                  Join(p.technologies, ", "), Join(p.features, "\n"))
  }

  /**
   * `handleSubmit`: the saved project. Its id is the form's, or a generated
   * `project-<now>` when the form has none; its lists are the text split on
   * the separator, trimmed, with the empty entries dropped.
   */
  function HandleSubmit(form: ProjectForm, now: nat): (p: Project)
    ensures form.id.Some? && form.id.value != "" ==> p.id == form.id.value
    ensures form.id.None? || form.id.value == "" ==> p.id == "project-" + NatToString(now)
    ensures forall k :: 0 <= k < |p.technologies| ==> p.technologies[k] != "" && Trimmed(p.technologies[k]) && ',' !in p.technologies[k]
    ensures forall k :: 0 <= k < |p.features| ==> p.features[k] != "" && Trimmed(p.features[k]) && '\n' !in p.features[k]
    ensures p.title == form.title && p.tech == form.tech && p.desc == form.desc && p.url == form.url
         && p.githubUrl == form.githubUrl && p.category == form.category && p.year == form.year && p.image == form.image
    ensures p.featured == Some(form.featured) && p.order == Some(form.order)
         && p.status == Some(form.status) && p.role == Some(form.role)
  {
    Project(
      id := Or(form.id.GetOr(""), "project-" + NatToString(now)),
      title := form.title,
      tech := form.tech,
      technologies := ParseList(form.technologiesStr, ','),
      desc := form.desc,
      url := form.url,
      githubUrl := form.githubUrl,
      category := form.category,
      year := form.year,
      image := form.image,
      features := ParseList(form.featuresStr, '\n'),
      featured := Some(form.featured),
      order := Some(form.order),
      status := Some(form.status),
      role := Some(form.role))
  }

  /** A list entry the form's text round-trips: non-empty, trimmed, and free of the separator. */
  predicate Editable(entries: seq<string>, sep: char) {
    forall k :: 0 <= k < |entries| ==> entries[k] != "" && Trimmed(entries[k]) && sep !in entries[k]
  }

  /**
   * Opening a project in the form and submitting it unchanged gives the
   * project back, with its missing optional fields filled from
   * `EMPTY_PROJECT`, provided its lists are editable as text.
   */
  lemma SubmitUnchanged(p: Project, config: SiteConfig, year: string, now: nat)
    requires p.id != ""
    requires Editable(p.technologies, ',') && Editable(p.features, '\n')
    ensures HandleSubmit(InitForm(Some(p), config, year), now)
         == p.(featured := Some(p.featured.GetOr(false)), order := Some(p.order.GetOr(999)),
               status := Some(p.status.GetOr("")), role := Some(p.role.GetOr("")))
  {
    var f := InitForm(Some(p), config, year);
    assert f.technologiesStr == Join(p.technologies, ", ") && f.featuresStr == Join(p.features, "\n");
    TechnologiesRoundTrip(p.technologies);
    FeaturesRoundTrip(p.features);
  }

  lemma TechnologiesRoundTrip(entries: seq<string>)
    requires Editable(entries, ',')
    ensures ParseList(Join(entries, ", "), ',') == entries
  {
    assert AllWhitespace(" ") && AllWhitespace("");
    assert [','] + " " == ", ";
    assert "" + Join(entries, ", ") == Join(entries, ", ");
    ParseJoinedList(entries, ',', " ", "");
  }

  lemma FeaturesRoundTrip(entries: seq<string>)
    requires Editable(entries, '\n')
    ensures ParseList(Join(entries, "\n"), '\n') == entries
  {
    assert AllWhitespace("");
    assert ['\n'] + "" == "\n";
    assert "" + Join(entries, "\n") == Join(entries, "\n");
    ParseJoinedList(entries, '\n', "", "");
  }

  /** `projects.find(x => x.id === id)`. */
  function FindById(ps: seq<Project>, id: string): (r: Option<Project>)
    ensures r.Some? ==> r.value in ps && r.value.id == id
    ensures r.None? <==> forall k :: 0 <= k < |ps| ==> ps[k].id != id
    ensures r.Some? ==> exists k :: 0 <= k < |ps| && ps[k] == r.value && forall j :: 0 <= j < k ==> ps[j].id != id
  {
    if ps == [] then None
    else if ps[0].id == id then Some(ps[0])
    else
      var r := FindById(ps[1..], id);
      assert r.Some? ==> exists k :: 0 <= k < |ps| && ps[k] == r.value && forall j :: 0 <= j < k ==> ps[j].id != id by {
        if r.Some? {
          var k :| 0 <= k < |ps[1..]| && ps[1..][k] == r.value && forall j :: 0 <= j < k ==> ps[1..][j].id != id;
          assert ps[k + 1] == r.value;
        }
      }
      r
  }

  /**
   * `localProjects.some((p, i) => p.id !== sorted[i]?.id)`: some position
   * holds a different project, or lies past the end of the sorted list.
   */
  predicate HasChanged(local: seq<Project>, sorted: seq<Project>) {
    exists i :: 0 <= i < |local| && !SameIdAt(local, sorted, i)
  }

  /** `p.id === sorted[i]?.id` at position `i` of the dragged list: false past the end of the sorted list. */
  predicate SameIdAt(local: seq<Project>, sorted: seq<Project>, i: nat)
    requires i < |local|
  {
    i < |sorted| && local[i].id == sorted[i].id
  }

  /** Unchanged means the dragged list names the same ids, in the same order, as the start of the sorted list. */
  lemma UnchangedMeansSameIds(local: seq<Project>, sorted: seq<Project>)
    ensures !HasChanged(local, sorted) <==> |local| <= |sorted| && ProjectIds(local) == ProjectIds(sorted)[..|local|]
  {
    if !HasChanged(local, sorted) {
      if |local| > |sorted| {
        LongerHasChanged(local, sorted);
      }
      assert |local| <= |sorted|;
      forall i | 0 <= i < |local|
        ensures ProjectIds(local)[i] == ProjectIds(sorted)[..|local|][i]
      {
        assert SameIdAt(local, sorted, i);
      }
    }
    if |local| <= |sorted| && ProjectIds(local) == ProjectIds(sorted)[..|local|] {
      forall i | 0 <= i < |local|
        ensures i < |sorted| && local[i].id == sorted[i].id
      {
        assert ProjectIds(local)[i] == ProjectIds(sorted)[..|local|][i];
      }
    }
  }

  /** A dragged list longer than the sorted one always counts as changed. */
  lemma LongerHasChanged(local: seq<Project>, sorted: seq<Project>)
    requires |local| > |sorted|
    ensures HasChanged(local, sorted)
  {
    var i := |sorted|;
    assert !SameIdAt(local, sorted, i);
  }

  /** `localProjects.map((p, index) => ({ ...p, order: index + 1 }))`. */
  function Renumber(ps: seq<Project>): (r: seq<Project>)
    ensures |r| == |ps|
    ensures forall i :: 0 <= i < |ps| ==> r[i] == ps[i].(order := Some(i + 1))
  {
    seq(|ps|, i requires 0 <= i < |ps| => ps[i].(order := Some(i + 1)))
  }

  /** The renumbered list is in order, so once the writes land the list sorts back into the dragged order. */
  lemma RenumberKeepsDraggedOrder(ps: seq<Project>)
    ensures Ordering.SortedBy(Renumber(ps), ProjectKey)
    ensures Ordering.Sort(Renumber(ps), ProjectKey) == Renumber(ps)
  {
    var r := Renumber(ps);
    assert forall i :: 0 <= i < |r| ==> ProjectKey(r[i]) == i + 1;
    Ordering.SortOfSorted(r, ProjectKey);
  }

  /** Under 'all' the dragged list holds every project, so the renumbering writes one merge for each of them. */
  lemma RenumberSpansAll(projects: seq<Project>, local: seq<Project>)
    requires multiset(local) == multiset(SortedProjects(projects, All))
    ensures |ProjectOrderMerges(Renumber(local))| == |projects|
    ensures forall k :: 0 <= k < |projects| ==> exists m :: 0 <= m < |local| && ProjectOrderMerges(Renumber(local))[m].id == projects[k].id
    ensures forall m :: 0 <= m < |local| ==> exists k :: 0 <= k < |projects| && ProjectOrderMerges(Renumber(local))[m].id == projects[k].id
  {
    assert multiset(local) == multiset(projects);
    assert |local| == |multiset(local)| == |multiset(projects)| == |projects|;
    forall k | 0 <= k < |projects|
      ensures exists m :: 0 <= m < |local| && ProjectOrderMerges(Renumber(local))[m].id == projects[k].id
    {
      MemberAt(local, projects[k]);
      var m :| 0 <= m < |local| && local[m] == projects[k];
      assert ProjectOrderMerges(Renumber(local))[m].id == local[m].id;
    }
    forall m | 0 <= m < |local|
      ensures exists k :: 0 <= k < |projects| && ProjectOrderMerges(Renumber(local))[m].id == projects[k].id
    {
      MemberAt(projects, local[m]);
      var k :| 0 <= k < |projects| && projects[k] == local[m];
      assert ProjectOrderMerges(Renumber(local))[m].id == local[m].id;
    }
  }

  lemma MemberAt(s: seq<Project>, p: Project)
    requires p in multiset(s)
    ensures exists m :: 0 <= m < |s| && s[m] == p
  {
  }

  class ProjectsPanel {
    /** The category filter; dragging is enabled only under 'all'. */
    var filterCat: string
    /** The list as shown, in the order the admin has dragged it into. */
    var localProjects: seq<Project>
    var addingNew: bool
    var editing: Option<Project>

    constructor(projects: seq<Project>)
      ensures filterCat == All && localProjects == SortedProjects(projects, All)
      ensures !addingNew && editing.None?
    {
      filterCat := All;
      localProjects := SortedProjects(projects, All);
      addingNew, editing := false, None;
    }

    /** The local list holds exactly the filtered projects of the store, in some order. */
    predicate InSync(projects: seq<Project>)
      reads this`filterCat, this`localProjects
    {
      multiset(localProjects) == multiset(Filtered(projects, filterCat))
    }

    /** The effect that re-sorts the local list whenever the store's projects or the filter change. */
    method Sync(projects: seq<Project>)
      modifies this`localProjects
      ensures localProjects == SortedProjects(projects, filterCat)
      ensures InSync(projects)
    {
      localProjects := SortedProjects(projects, filterCat);
    }

    /** A category button of the panel, followed by the re-sort it triggers. */
    method SetFilter(cat: string, projects: seq<Project>)
      modifies this`filterCat, this`localProjects
      ensures filterCat == cat && localProjects == SortedProjects(projects, cat)
      ensures InSync(projects)
    {
      filterCat := cat;
      Sync(projects);
    }

    /** `onReorder` while dragging: the same projects in a new order. */
    method Reorder(newOrder: seq<Project>)
      requires filterCat == All
      requires multiset(newOrder) == multiset(localProjects)
      modifies this`localProjects
      ensures localProjects == newOrder
      ensures forall projects :: old(InSync(projects)) ==> InSync(projects)
    {
      localProjects := newOrder;
    }

    /**
     * `handleDragEnd`: when the dragged list differs from the sorted one,
     * every listed project is written with its position plus one as its
     * order, until the first failure, and "Order updated" is shown;
     * otherwise nothing is written or shown.
     */
    method DragEnd(store: PortfolioStore.Store, toasts: Toast.ToastQueue, failAt: Option<nat>, now: nat)
      modifies store`log, toasts`toasts
      ensures var sorted := SortedProjects(store.projects, filterCat);
        if HasChanged(localProjects, sorted) then
          && store.log == old(store.log) + Issued(ProjectOrderMerges(Renumber(localProjects)), failAt)
          && toasts.toasts == old(toasts.toasts) + Toast.NewToasts(toasts.provided, Success, "Order updated", now)
        else
          store.log == old(store.log) && toasts.toasts == old(toasts.toasts)
    {
      var sorted := SortedProjects(store.projects, filterCat);
      if HasChanged(localProjects, sorted) {
        var updated := Renumber(localProjects);
        store.ReorderProjects(updated, failAt);
        var _ := toasts.ShowToast(Success, "Order updated", now);
      }
    }

    /** `handleSave`: adds a new project or updates an existing one, says so, and closes the form. */
    method HandleSave(store: PortfolioStore.Store, toasts: Toast.ToastQueue, p: Project, now: nat)
      modifies this`addingNew, this`editing, store`log, toasts`toasts
      ensures old(addingNew) ==>
        && store.log == old(store.log) + [SetDoc(ProjectsColl, p.id, ProjectDoc(p))]
        && toasts.toasts == old(toasts.toasts) + Toast.NewToasts(toasts.provided, Success, "\"" + p.title + "\" added successfully!", now)
        && !addingNew && editing == old(editing)
      ensures !old(addingNew) ==>
        && store.log == old(store.log) + [MergeDoc(ProjectsColl, p.id, Record(ProjectDoc(p)))]
        && toasts.toasts == old(toasts.toasts) + Toast.NewToasts(toasts.provided, Success, "\"" + p.title + "\" updated!", now)
        && !addingNew && editing.None?
    {
      if addingNew {
        store.AddProject(p);
        var _ := toasts.ShowToast(Success, "\"" + p.title + "\" added successfully!", now);
        addingNew := false;
      } else {
        store.UpdateProject(p.id, p);
        var _ := toasts.ShowToast(Success, "\"" + p.title + "\" updated!", now);
        editing := None;
      }
    }

    /** `handleDelete`: deletes by id and names the project, or "undefined" when the store has no such project. */
    method HandleDelete(store: PortfolioStore.Store, toasts: Toast.ToastQueue, id: string, now: nat)
      modifies store`log, toasts`toasts
      ensures store.log == old(store.log) + [DeleteDoc(ProjectsColl, id)]
      ensures var title := match FindById(store.projects, id) case Some(p) => p.title case None => "undefined";
        toasts.toasts == old(toasts.toasts) + Toast.NewToasts(toasts.provided, Success, "\"" + title + "\" deleted.", now)
    {
      var found := FindById(store.projects, id);
      var title := match found case Some(p) => p.title case None => "undefined";
      store.DeleteProject(id);
      var _ := toasts.ShowToast(Success, "\"" + title + "\" deleted.", now);
    }
  }
}
