/**
 * components/ProjectsGrid.tsx: the list of project cards for the active
 * filter.  A change of projects or filter starts a transition; when its timer
 * fires the filtered list is stored and announced.  The view shown is the
 * loading view, the empty view or the grid, in that priority.
 */
module ProjectsGrid {
  import opened Strings
  import opened Projects

  /** getFilterLabel(filter, t): the translated platform name, or the raw filter value when that is empty. */
  function GetFilterLabel(filter: PlatformFilter, t: string -> string): (name: string)
    ensures filter.AllPlatforms? ==> name == t("projects.platform.all")
    ensures filter.Only? && t("projects.platform." + FilterCode(filter)) != "" ==>
      name == t("projects.platform." + FilterCode(filter))
    ensures filter.Only? && t("projects.platform." + FilterCode(filter)) == "" ==> name == FilterCode(filter)
  {
    if filter.AllPlatforms? then t("projects.platform.all")
    else OrElse(t("projects.platform." + FilterCode(filter)), FilterCode(filter))
  }

  /** A platform filter always has a non-empty label. */
  lemma PlatformLabelNeverEmpty(p: Platform, t: string -> string)
    ensures GetFilterLabel(Only(p), t) != ""
  {
  }

  /** The text under the empty view's heading. */
  function EmptyDescription(filter: PlatformFilter, t: string -> string): (text: string)
    ensures filter.AllPlatforms? ==> text == t("projects.noActiveProjects")
    ensures filter.Only? ==> text == GetFilterLabel(filter, t) + " " + t("projects.noProjectsInCategory")
  {
    if filter.AllPlatforms? then t("projects.noActiveProjects")
    else GetFilterLabel(filter, t) + " " + t("projects.noProjectsInCategory")
  }

  /** The announcement written when a transition ends. */
  function Announcement(filter: PlatformFilter, count: nat, t: string -> string): (text: string)
    ensures |GetFilterLabel(filter, t)| < |text| && text[..|GetFilterLabel(filter, t)|] == GetFilterLabel(filter, t)
  {
    GetFilterLabel(filter, t) + " " + t("projects.filterApplied") + " " + NatToString(count) + " " + t("projects.projectsShowing")
  }

  /** Under the same filter and words, different counts are announced differently. */
  lemma AnnouncementTellsCounts(filter: PlatformFilter, t: string -> string, m: nat, n: nat)
    requires m != n
    ensures Announcement(filter, m, t) != Announcement(filter, n, t)
  {
    var prefix := GetFilterLabel(filter, t) + " " + t("projects.filterApplied") + " ";
    var suffix := " " + t("projects.projectsShowing");
    assert Announcement(filter, m, t) == prefix + NatToString(m) + suffix;
    assert Announcement(filter, n, t) == prefix + NatToString(n) + suffix;
    ParseNatToString(m);
    ParseNatToString(n);
    MiddleCancels(prefix, NatToString(m), NatToString(n), suffix);
  }

  /** Equal strings with the same prefix and suffix have the same middle. */
  lemma MiddleCancels(prefix: string, x: string, y: string, suffix: string)
    ensures prefix + x + suffix == prefix + y + suffix ==> x == y
  {
    if prefix + x + suffix == prefix + y + suffix {
      assert |x| == |y|;
      assert x == (prefix + x + suffix)[|prefix|..|prefix| + |x|];
      assert y == (prefix + y + suffix)[|prefix|..|prefix| + |y|];
    }
  }

  datatype View =
    | LoadingView(text: string)
    | EmptyView(title: string, description: string)
    | GridView(cards: seq<Project>, ariaLabel: string)

  /** The branch the component renders. */
  function SelectView(isLoading: bool, isTransitioning: bool, filtered: seq<Project>, filter: PlatformFilter,
                      t: string -> string): (v: View)
    ensures v.LoadingView? <==> isLoading
    ensures v.EmptyView? <==> !isLoading && !isTransitioning && filtered == []
    ensures v.EmptyView? ==> v.description == EmptyDescription(filter, t)
    ensures v.GridView? ==> v.cards == filtered
  {
    if isLoading then LoadingView(t("projects.loading"))
    else if !isTransitioning && |filtered| == 0 then EmptyView(t("projects.noProjectsFound"), EmptyDescription(filter, t))
    else GridView(filtered, t("projects.projectList") + "- " + NatToString(|filtered|))
  }

  class GridState {
    var projects: seq<Project>
    var activeFilter: PlatformFilter
    var filteredProjects: seq<Project>
    var isTransitioning: bool
    /** The text of the live region, which every branch renders. */
    var announcement: string

    /** First render: nothing filtered yet, not transitioning. */
    constructor (projects: seq<Project>, activeFilter: PlatformFilter)
      ensures this.projects == projects && this.activeFilter == activeFilter
      ensures filteredProjects == [] && !isTransitioning && announcement == ""
    {
      this.projects := projects;
      this.activeFilter := activeFilter;
      filteredProjects := [];
      isTransitioning := false;
      announcement := "";
    }

    /** The effect on `[projects, activeFilter, t]`: start a transition. */
    method PropsChanged(projects: seq<Project>, activeFilter: PlatformFilter)
      modifies this
      ensures this.projects == projects && this.activeFilter == activeFilter && isTransitioning
      ensures filteredProjects == old(filteredProjects) && announcement == old(announcement)
    {
      this.projects := projects;
      this.activeFilter := activeFilter;
      isTransitioning := true;
    }

    /** The 150 ms timer: store the filtered list, end the transition, announce the count. */
    method TransitionEnds(t: string -> string)
      modifies this
      ensures filteredProjects == GetProjectsByPlatform(projects, activeFilter)
      ensures !isTransitioning
      ensures announcement == Announcement(activeFilter, |filteredProjects|, t)
      ensures projects == old(projects) && activeFilter == old(activeFilter)
    {
      var filtered := if activeFilter.AllPlatforms? then projects else Filter(projects, OnPlatform(activeFilter.platform));
      filteredProjects := filtered;
      isTransitioning := false;
      announcement := Announcement(activeFilter, |filtered|, t);
    }

    function Render(isLoading: bool, t: string -> string): View
      reads this
    {
      SelectView(isLoading, isTransitioning, filteredProjects, activeFilter, t)
    }
  }

  /**
   * After a filter change settles, the grid shows exactly the projects of the
   * chosen platform, and the empty view exactly when there are none.
   */
  method FilterSettles(g: GridState, filter: PlatformFilter, t: string -> string) returns (v: View)
    modifies g
    ensures v == g.Render(false, t)
    ensures v.EmptyView? <==> GetProjectsByPlatform(g.projects, filter) == []
    ensures v.GridView? ==> v.cards == GetProjectsByPlatform(g.projects, filter)
    ensures forall i :: 0 <= i < |g.filteredProjects| ==> Matches(filter, g.filteredProjects[i])
  {
    g.PropsChanged(g.projects, filter);
    g.TransitionEnds(t);
    ProjectsByPlatformMembers(g.projects, filter);
    v := g.Render(false, t);
  }

  /** While loading, nothing but the loading view is shown, whatever the filter state. */
  lemma LoadingWins(isTransitioning: bool, filtered: seq<Project>, filter: PlatformFilter, t: string -> string)
    ensures SelectView(true, isTransitioning, filtered, filter, t) == LoadingView(t("projects.loading"))
  {
  }
}
