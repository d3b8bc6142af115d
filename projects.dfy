/**
 * data/projects.ts: the project catalogue, its filters by platform, by the
 * featured flag and by id, the options of the platform filter, and the
 * localised copies that take title, description, purpose and features from
 * the `projectData` section of a language file.
 */
module Projects {
  import opened Wrappers
  import opened Strings
  import opened TranslationTree

  datatype Platform = Web | Android | Ios

  /** A filter value: 'all' or one platform. */
  datatype PlatformFilter = AllPlatforms | Only(platform: Platform)

  function PlatformCode(p: Platform): string {
    match p
    case Web => "web"
    case Android => "android"
    case Ios => "ios"
  }

  function FilterCode(f: PlatformFilter): string {
    match f
    case AllPlatforms => "all"
    case Only(p) => PlatformCode(p)
  }

  /** The filter value a string names, if any. */
  function ParsePlatformFilter(s: string): (r: Option<PlatformFilter>)
    ensures r.Some? ==> FilterCode(r.value) == s
    ensures r.None? ==> forall f: PlatformFilter :: FilterCode(f) != s
  {
    if s == "all" then Some(AllPlatforms)
    else if s == "web" then Some(Only(Web))
    else if s == "android" then Some(Only(Android))
    else if s == "ios" then Some(Only(Ios))
    else None
  }

  /**
   * ProjectData.  Title and description are options only because a localised
   * entry lacking them leaves them `undefined`; every catalogue entry has both.
   */
  datatype Project = Project(
    id: string,
    title: Option<string>,
    description: Option<string>,
    purpose: Option<string>,
    features: Option<seq<string>>,
    platform: Platform,
    technologies: seq<string>,
    link: Option<string>,
    githubLink: Option<string>,
    featured: bool,
    completionDate: Option<string>)

  /**
   * The catalogue, in the order the source lists it.  The lookups below take
   * the list as a parameter, `projects` in the source being this constant.
   */
  const Web1: Project :=
    Project(
      id := "web-1",
      title := Some("E-Commerce Dashboard"),
      description := Some("Modern and responsive e-commerce management panel. Includes real-time sales analytics, product management, and customer tracking system."),
      purpose := Some("Streamline e-commerce business operations with comprehensive analytics and management tools"),
      features := Some([
        "Real-time sales analytics and reporting",
        "Product inventory management system",
        "Customer tracking and behavior analysis",
        "Interactive charts and data visualization",
        "Responsive design for all devices"]),
      platform := Web,
      technologies := ["React", "Next.js", "TypeScript", "Tailwind CSS", "Chart.js"],
      link := Some("https://ecommerce-dashboard-demo.com"),
      githubLink := Some("https://github.com/username/ecommerce-dashboard"),
      featured := true,
      completionDate := Some("2024-01"))

  const Web2: Project :=
    Project(
      id := "web-2",
      title := Some("Portfolio Website"),
      description := Some("Personal portfolio website. A modern CV site with dark/light theme support, animations, and responsive design."),
      purpose := Some("Showcase professional skills and projects with an engaging, modern web presence"),
      features := Some([
        "Dark and light theme toggle",
        "Smooth animations and transitions",
        "Fully responsive design",
        "Project showcase with filtering",
        "Contact form integration"]),
      platform := Web,
      technologies := ["Next.js", "React", "CSS Modules", "Framer Motion"],
      link := Some("https://portfolio-demo.com"),
      githubLink := Some("https://github.com/username/portfolio"),
      featured := true,
      completionDate := Some("2024-02"))

  const Web3: Project :=
    Project(
      id := "web-3",
      title := Some("Task Management App"),
      description := Some("Task management application developed for team collaboration. Features Kanban board, time tracking, and project analytics."),
      purpose := Some("Enhance team productivity through organized task management and collaboration tools"),
      features := Some([
        "Kanban board for visual task organization",
        "Time tracking and productivity metrics",
        "Real-time collaboration with team members",
        "Project analytics and reporting",
        "Task assignment and deadline management"]),
      platform := Web,
      technologies := ["Vue.js", "Node.js", "Express", "MongoDB", "Socket.io"],
      link := Some("https://taskmanager-demo.com"),
      githubLink := Some("https://github.com/username/task-manager"),
      featured := false,
      completionDate := Some("2023-12"))

  const Android1: Project :=
    Project(
      id := "android-1",
      title := Some("Fitness Tracker"),
      description := Some("Comprehensive fitness application with daily activity tracking, exercise plans, and nutrition monitoring."),
      purpose := Some("Help users maintain a healthy lifestyle through comprehensive fitness tracking and guidance"),
      features := Some([
        "Daily activity and step tracking",
        "Personalized exercise plans and workouts",
        "Nutrition monitoring and calorie counting",
        "Progress tracking with charts and statistics",
        "Goal setting and achievement rewards"]),
      platform := Android,
      technologies := ["Kotlin", "Android Jetpack", "Room Database", "Retrofit", "Material Design"],
      link := Some("https://play.google.com/store/apps/fitness-tracker"),
      githubLink := Some("https://github.com/username/fitness-tracker-android"),
      featured := true,
      completionDate := Some("2024-01"))

  const Android2: Project :=
    Project(
      id := "android-2",
      title := Some("Weather App"),
      description := Some("Modern weather application featuring current weather information, 7-day forecasts, and interactive maps."),
      purpose := Some("Provide accurate and detailed weather information with intuitive visual presentation"),
      features := Some([
        "Current weather conditions and temperature",
        "7-day detailed weather forecast",
        "Interactive weather maps and radar",
        "Location-based weather alerts",
        "Hourly weather predictions"]),
      platform := Android,
      technologies := ["Java", "Android SDK", "OpenWeatherMap API", "Google Maps API"],
      link := Some("https://play.google.com/store/apps/weather-app"),
      githubLink := Some("https://github.com/username/weather-android"),
      featured := false,
      completionDate := Some("2023-11"))

  const Android3: Project :=
    Project(
      id := "android-3",
      title := Some("Note Taking App"),
      description := Some("Advanced note-taking application with Markdown support, category system, and cloud synchronization."),
      purpose := Some("Organize thoughts and information efficiently with advanced note-taking capabilities"),
      features := Some([
        "Markdown support for rich text formatting",
        "Category and tag organization system",
        "Cloud synchronization across devices",
        "Search functionality within notes",
        "Export notes in multiple formats"]),
      platform := Android,
      technologies := ["Kotlin", "MVVM", "Firebase", "Room", "Material You"],
      link := None,
      githubLink := Some("https://github.com/username/notes-android"),
      featured := false,
      completionDate := Some("2023-10"))

  const Ios1: Project :=
    Project(
      id := "ios-1",
      title := Some("Budget Tracker"),
      description := Some("Budget tracking application developed for personal finance management. Features expense categories, charts, and goal setting."),
      purpose := Some("Empower users to take control of their finances through detailed budget tracking and analysis"),
      features := Some([
        "Expense categorization and tracking",
        "Visual charts and spending analytics",
        "Budget goal setting and monitoring",
        "Recurring transaction management",
        "Financial insights and recommendations"]),
      platform := Ios,
      technologies := ["Swift", "SwiftUI", "Core Data", "Charts Framework", "CloudKit"],
      link := Some("https://apps.apple.com/app/budget-tracker"),
      githubLink := Some("https://github.com/username/budget-tracker-ios"),
      featured := true,
      completionDate := Some("2024-02"))

  const Ios2: Project :=
    Project(
      id := "ios-2",
      title := Some("Recipe Book"),
      description := Some("Recipe application featuring recipe collection, shopping list creation, and nutritional value calculation."),
      purpose := Some("Simplify cooking and meal planning with organized recipes and smart shopping features"),
      features := Some([
        "Comprehensive recipe collection and search",
        "Automatic shopping list generation",
        "Nutritional value calculation and tracking",
        "Step-by-step cooking instructions",
        "Recipe sharing and favorites system"]),
      platform := Ios,
      technologies := ["Swift", "UIKit", "Core Data", "AVFoundation", "Vision Framework"],
      link := Some("https://apps.apple.com/app/recipe-book"),
      githubLink := Some("https://github.com/username/recipe-book-ios"),
      featured := false,
      completionDate := Some("2023-12"))

  const Ios3: Project :=
    Project(
      id := "ios-3",
      title := Some("Meditation App"),
      description := Some("Mindfulness application featuring daily meditation sessions, breathing exercises, and sleep stories."),
      purpose := Some("Promote mental wellness and mindfulness through guided meditation and relaxation techniques"),
      features := Some([
        "Daily guided meditation sessions",
        "Breathing exercises and techniques",
        "Sleep stories and relaxation sounds",
        "Progress tracking and streaks",
        "Personalized meditation recommendations"]),
      platform := Ios,
      technologies := ["SwiftUI", "Combine", "AVAudioPlayer", "HealthKit", "StoreKit"],
      link := Some("https://apps.apple.com/app/meditation-app"),
      githubLink := Some("https://github.com/username/meditation-ios"),
      featured := true,
      completionDate := Some("2024-01"))

  const Catalogue: seq<Project> := [Web1, Web2, Web3, Android1, Android2, Android3, Ios1, Ios2, Ios3]

  // ---------------------------------------------------------------------------
  // Filters

  predicate Matches(filter: PlatformFilter, p: Project) {
    filter.AllPlatforms? || p.platform == filter.platform
  }

  function OnPlatform(platform: Platform): Project -> bool {
    (p: Project) => p.platform == platform
  }

  function IsFeatured(p: Project): bool {
    p.featured
  }

  /** getProjectsByPlatform(platform): the catalogue itself for 'all'. */
  function GetProjectsByPlatform(projects: seq<Project>, filter: PlatformFilter): (r: seq<Project>)
    ensures filter.AllPlatforms? ==> r == projects
    ensures |r| <= |projects|
  {
    if filter.AllPlatforms? then projects else Filter(projects, OnPlatform(filter.platform))
  }

  /** The projects a filter keeps are exactly those matching it. */
  lemma ProjectsByPlatformMembers(projects: seq<Project>, filter: PlatformFilter)
    ensures forall i :: 0 <= i < |GetProjectsByPlatform(projects, filter)| ==>
      GetProjectsByPlatform(projects, filter)[i] in projects && Matches(filter, GetProjectsByPlatform(projects, filter)[i])
    ensures forall i :: 0 <= i < |projects| && Matches(filter, projects[i]) ==>
      projects[i] in GetProjectsByPlatform(projects, filter)
  {
    if filter.Only? {
      FilterMembers(projects, OnPlatform(filter.platform));
    }
  }

  /** The three platform filters split the catalogue: each project is in exactly one. */
  lemma {:induction false} PlatformsPartition(projects: seq<Project>)
    ensures |GetProjectsByPlatform(projects, Only(Web))| + |GetProjectsByPlatform(projects, Only(Android))|
      + |GetProjectsByPlatform(projects, Only(Ios))| == |projects|
  {
    if projects != [] {
      PlatformsPartition(projects[1..]);
    }
  }

  /** getFeaturedProjects() */
  function GetFeaturedProjects(projects: seq<Project>): (r: seq<Project>)
    ensures |r| <= |projects|
  {
    Filter(projects, IsFeatured)
  }

  lemma FeaturedProjectsMembers(projects: seq<Project>)
    ensures forall i :: 0 <= i < |GetFeaturedProjects(projects)| ==>
      GetFeaturedProjects(projects)[i] in projects && GetFeaturedProjects(projects)[i].featured
    ensures forall i :: 0 <= i < |projects| && projects[i].featured ==> projects[i] in GetFeaturedProjects(projects)
  {
    FilterMembers(projects, IsFeatured);
  }

  /** The position of the first project with the id, searching from `k`. */
  function FirstWithId(projects: seq<Project>, id: string, k: nat): (r: Option<nat>)
    requires k <= |projects|
    ensures r.Some? ==>
      k <= r.value < |projects| && projects[r.value].id == id && forall j :: k <= j < r.value ==> projects[j].id != id
    ensures r.None? ==> forall j :: k <= j < |projects| ==> projects[j].id != id
    decreases |projects| - k
  {
    if k == |projects| then None
    else if projects[k].id == id then Some(k)
    else FirstWithId(projects, id, k + 1)
  }

  /** getProjectById(id): the first project with the id, or none. */
  function GetProjectById(projects: seq<Project>, id: string): (r: Option<Project>)
    ensures r.Some? <==> exists i :: 0 <= i < |projects| && projects[i].id == id
    ensures r.Some? ==> r.value.id == id
    ensures r.Some? ==> exists i :: 0 <= i < |projects| && projects[i] == r.value && forall j :: 0 <= j < i ==> projects[j].id != id
  {
    match FirstWithId(projects, id, 0)
    case Some(i) => Some(projects[i])
    case None => None
  }

  /** With distinct ids, each project is found by its own id. */
  lemma ProjectFoundById(projects: seq<Project>, k: nat)
    requires k < |projects|
    requires forall i, j :: 0 <= i < j < |projects| ==> projects[i].id != projects[j].id
    ensures GetProjectById(projects, projects[k].id) == Some(projects[k])
  {
    var r := GetProjectById(projects, projects[k].id);
    var i :| 0 <= i < |projects| && projects[i] == r.value && forall j :: 0 <= j < i ==> projects[j].id != projects[k].id;
    assert i == k;
  }

  /** platformOptions: the filter values in tab order, with their labels. */
  const PlatformOptions: seq<(PlatformFilter, string)> :=
    [(AllPlatforms, "All"), (Only(Web), "Web"), (Only(Android), "Android"), (Only(Ios), "iOS")]

  /** The tab position of a filter value among the options. */
  function OptionIndex(f: PlatformFilter): (i: nat)
    ensures i < |PlatformOptions| && PlatformOptions[i].0 == f
    ensures forall j :: 0 <= j < |PlatformOptions| && PlatformOptions[j].0 == f ==> j == i
  {
    match f
    case AllPlatforms => 0
    case Only(Web) => 1
    case Only(Android) => 2
    case Only(Ios) => 3
  }

  // ---------------------------------------------------------------------------
  // Localisation

  /** The language file used: Turkish for 'tr' and English for every other value. */
  function LanguageFile(store: Bundle, language: string): Root {
    if language == "tr" then store.tr else store.en
  }

  /** JavaScript truthiness of a JSON value found in a language file. */
  predicate Truthy(n: Node) {
    !n.Str? || n.s != ""
  }

  /** `localizedData.<key>` read as a string; anything else is `undefined` here. */
  function TextField(entry: Node, key: string): Option<string> {
    match Child(entry, key)
    case Some(Str(s)) => Some(s)
    case _ => None
  }

  /** `localizedData.features` read as a list of strings. */
  function ListField(entry: Node, key: string): Option<seq<string>> {
    match Child(entry, key)
    case Some(Arr(items)) => Some(items)
    case _ => None
  }

  /** One project, with its text replaced by a truthy `projectData[id]` entry. */
  function Localize(file: Root, p: Project): (r: Project)
    ensures SameShape(p, r)
    ensures Replaced(file, p.id) ==> LocalizedTexts(r, Walk(file, ["projectData", p.id]).value)
    ensures !Replaced(file, p.id) ==> r == p
  {
    var entry := Walk(file, ["projectData", p.id]);
    if entry.Some? && Truthy(entry.value) then
      p.(title := TextField(entry.value, "title"),
         description := TextField(entry.value, "description"),
         purpose := TextField(entry.value, "purpose"),
         features := ListField(entry.value, "features"))
    else p
  }

  /** `if (localizedData)`: the language file has a truthy `projectData` entry for the id. */
  predicate Replaced(file: Root, id: string) {
    var entry := Walk(file, ["projectData", id]);
    entry.Some? && Truthy(entry.value)
  }

  /** The title, description, purpose and features are the entry's fields of those names. */
  predicate LocalizedTexts(q: Project, entry: Node) {
    q.title == TextField(entry, "title") && q.description == TextField(entry, "description")
    && q.purpose == TextField(entry, "purpose") && q.features == ListField(entry, "features")
  }

  /** Every field other than the four text fields is the same. */
  predicate SameShape(p: Project, q: Project) {
    p.id == q.id && p.platform == q.platform && p.technologies == q.technologies && p.link == q.link
    && p.githubLink == q.githubLink && p.featured == q.featured && p.completionDate == q.completionDate
  }

  /** getLocalizedProjects(language): the catalogue, in order, each project localised. */
  function GetLocalizedProjects(store: Bundle, projects: seq<Project>, language: string): (r: seq<Project>)
    ensures |r| == |projects|
    ensures forall i :: 0 <= i < |projects| ==> SameShape(projects[i], r[i])
    ensures forall i :: 0 <= i < |projects| && Replaced(LanguageFile(store, language), projects[i].id) ==>
      LocalizedTexts(r[i], Walk(LanguageFile(store, language), ["projectData", projects[i].id]).value)
    ensures forall i :: 0 <= i < |projects| && !Replaced(LanguageFile(store, language), projects[i].id) ==>
      r[i] == projects[i]
  {
    seq(|projects|, i requires 0 <= i < |projects| => Localize(LanguageFile(store, language), projects[i]))
  }

  /** Only 'tr' reads the Turkish file: any other language value reads English. */
  lemma LocalizedOnlyTurkishForTr(store: Bundle, projects: seq<Project>, language: string)
    requires language != "tr"
    ensures GetLocalizedProjects(store, projects, language) == GetLocalizedProjects(store, projects, "en")
  {
  }

  function Ids(projects: seq<Project>): (ids: seq<string>)
    ensures |ids| == |projects|
    ensures forall i :: 0 <= i < |projects| ==> ids[i] == projects[i].id
  {
    seq(|projects|, i requires 0 <= i < |projects| => projects[i].id)
  }

  /** getLocalizedProjectsByPlatform(platform, language): the same projects as the plain filter, in order, localised. */
  function GetLocalizedProjectsByPlatform(store: Bundle, projects: seq<Project>, filter: PlatformFilter, language: string): (r: seq<Project>)
    ensures Ids(r) == Ids(GetProjectsByPlatform(projects, filter))
    ensures forall i :: 0 <= i < |r| ==> Matches(filter, r[i])
  {
    var localized := GetLocalizedProjects(store, projects, language);
    ProjectsByPlatformMembers(localized, filter);
    if filter.Only? then
      PlatformFilterSameShape(localized, projects, filter.platform);
      GetProjectsByPlatform(localized, filter)
    else
      assert Ids(localized) == Ids(projects);
      GetProjectsByPlatform(localized, filter)
  }

  /** getLocalizedFeaturedProjects(language): the same projects as the plain featured list, in order, localised. */
  function GetLocalizedFeaturedProjects(store: Bundle, projects: seq<Project>, language: string): (r: seq<Project>)
    ensures Ids(r) == Ids(GetFeaturedProjects(projects))
    ensures forall i :: 0 <= i < |r| ==> r[i].featured
  {
    var localized := GetLocalizedProjects(store, projects, language);
    FeaturedProjectsMembers(localized);
    FeaturedFilterSameShape(localized, projects);
    GetFeaturedProjects(localized)
  }

  /** Filtering two lists that agree pointwise on the shape by platform keeps the same ids. */
  lemma {:induction false} PlatformFilterSameShape(a: seq<Project>, b: seq<Project>, platform: Platform)
    requires |a| == |b| && forall i :: 0 <= i < |a| ==> SameShape(a[i], b[i])
    ensures Ids(Filter(a, OnPlatform(platform))) == Ids(Filter(b, OnPlatform(platform)))
  {
    if a != [] {
      PlatformFilterSameShape(a[1..], b[1..], platform);
      var fa, fb := Filter(a[1..], OnPlatform(platform)), Filter(b[1..], OnPlatform(platform));
      if a[0].platform == platform {
        assert Ids([a[0]] + fa) == [a[0].id] + Ids(fa);
        assert Ids([b[0]] + fb) == [b[0].id] + Ids(fb);
      }
    }
  }

  /** The same for the featured filter. */
  lemma {:induction false} FeaturedFilterSameShape(a: seq<Project>, b: seq<Project>)
    requires |a| == |b| && forall i :: 0 <= i < |a| ==> SameShape(a[i], b[i])
    ensures Ids(Filter(a, IsFeatured)) == Ids(Filter(b, IsFeatured))
  {
    if a != [] {
      FeaturedFilterSameShape(a[1..], b[1..]);
      var fa, fb := Filter(a[1..], IsFeatured), Filter(b[1..], IsFeatured);
      if a[0].featured {
        assert Ids([a[0]] + fa) == [a[0].id] + Ids(fa);
        assert Ids([b[0]] + fb) == [b[0].id] + Ids(fb);
      }
    }
  }

  /**
   * getLocalizedProjectById(id, language): defined exactly when the plain
   * lookup is, and then the same project up to its texts.
   */
  function GetLocalizedProjectById(store: Bundle, projects: seq<Project>, id: string, language: string): (r: Option<Project>)
    ensures r.Some? <==> GetProjectById(projects, id).Some?
    ensures r.Some? ==> r.value.id == id && SameShape(GetProjectById(projects, id).value, r.value)
  {
    var localized := GetLocalizedProjects(store, projects, language);
    LocalizedFirstMatch(projects, localized, id);
    GetProjectById(localized, id)
  }

  lemma {:induction false} LocalizedFirstMatch(a: seq<Project>, b: seq<Project>, id: string)
    requires |a| == |b| && forall i :: 0 <= i < |a| ==> SameShape(a[i], b[i])
    ensures GetProjectById(b, id).Some? <==> GetProjectById(a, id).Some?
    ensures GetProjectById(b, id).Some? ==> SameShape(GetProjectById(a, id).value, GetProjectById(b, id).value)
  {
    if a != [] && a[0].id != id {
      LocalizedFirstMatch(a[1..], b[1..], id);
    }
  }
}
