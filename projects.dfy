/** The public projects section: a category filter over the project list, which
    starts as a built-in list and is replaced by fetched rows when there are any. */
module Projects {
  import opened Common

  /** The filter buttons, in display order. */
  const Categories: seq<string> := ["all", "frontend", "backend", "fullstack", "other"]

  /** The project list with the filter applied: everything for `'all'`, otherwise
      the projects whose category is the filter. */
  function Filtered(projects: seq<Project>, filter: string): seq<Project>
  {
    if filter == "all" then projects else OfCategory(projects, filter)
  }

  /** `projects.filter((p) => p.category === c)`. */
  function OfCategory(projects: seq<Project>, c: string): seq<Project>
  {
    if projects == [] then []
    else (if projects[0].category == Some(c) then [projects[0]] else []) + OfCategory(projects[1..], c)
  }

  /** `xs` is obtained from `ys` by deleting elements, keeping the order. */
  predicate IsSubsequence<T(==)>(xs: seq<T>, ys: seq<T>)
    decreases |ys|
  {
    xs == [] || (ys != [] && ((xs[0] == ys[0] && IsSubsequence(xs[1..], ys[1..])) || IsSubsequence(xs, ys[1..])))
  }

  /** Number of projects in category `c`. */
  function CountOf(projects: seq<Project>, c: string): nat
  {
    if projects == [] then 0
    else (if projects[0].category == Some(c) then 1 else 0) + CountOf(projects[1..], c)
  }

  /** Whether the "no projects in this category" message shows. */
  predicate ShowsEmptyMessage(projects: seq<Project>, filter: string)
  {
    |Filtered(projects, filter)| == 0
  }

  lemma AllShowsEverything(projects: seq<Project>)
    ensures Filtered(projects, "all") == projects
  {
  }

  /** Any other filter keeps exactly the projects of that category: each kept
      project has it, every project that has it is kept (as many times as it
      occurs), and the order is the list's own. */
  lemma {:induction false} FilterKeepsExactlyCategory(projects: seq<Project>, c: string)
    requires c != "all"
    ensures var r := Filtered(projects, c);
      (forall p | p in r :: p.category == Some(c))
      && (forall p | p in projects && p.category == Some(c) :: p in r)
      && |r| == CountOf(projects, c)
      && IsSubsequence(r, projects)
  {
    if projects != [] {
      FilterKeepsExactlyCategory(projects[1..], c);
      var rest := OfCategory(projects[1..], c);
      if projects[0].category == Some(c) {
        assert OfCategory(projects, c) == [projects[0]] + rest;
        assert ([projects[0]] + rest)[1..] == rest;
      } else {
        assert OfCategory(projects, c) == rest;
        SubsequenceOfTail(rest, projects);
      }
      forall p | p in projects && p.category == Some(c)
        ensures p in OfCategory(projects, c)
      {
        if p != projects[0] {
          assert p in projects[1..];
        }
      }
    }
  }

  lemma SubsequenceOfTail<T>(xs: seq<T>, ys: seq<T>)
    requires ys != [] && IsSubsequence(xs, ys[1..])
    ensures IsSubsequence(xs, ys)
  {
  }

  /** The "no projects" message shows exactly when no project matches. */
  lemma EmptyMessageIffNoMatch(projects: seq<Project>, filter: string)
    ensures ShowsEmptyMessage(projects, filter) <==>
      (if filter == "all" then projects == [] else CountOf(projects, filter) == 0)
  {
    if filter != "all" {
      FilterKeepsExactlyCategory(projects, filter);
    }
  }

  function DefaultProject(id: string, title: string, description: string, tech: seq<string>, category: string): Project
  {
    Project(id, Some(title), Some(description), Some(tech), Some(category), Some(""), Some("#"), Some("#"))
  }

  const DefaultProjects: seq<Project> := [
    DefaultProject("1", "AI Chat Application",
      "A real-time chat app powered by AI with natural language processing and smart replies.",
      ["React", "Python", "OpenAI", "WebSocket"], "fullstack"),
    DefaultProject("2", "E-Commerce Dashboard",
      "Modern admin dashboard with analytics, order management, and responsive charts.",
      ["Next.js", "Tailwind", "Supabase", "Chart.js"], "frontend"),
    DefaultProject("3", "Task Manager API",
      "RESTful API for task management with auth, CRUD operations, and real-time sync.",
      ["FastAPI", "PostgreSQL", "Docker", "JWT"], "backend"),
    DefaultProject("4", "Portfolio Template",
      "Animated developer portfolio with dark theme, glassmorphism, and particle effects.",
      ["React", "Framer Motion", "Tailwind"], "frontend")]

  /** The list after a fetch completes: the fetched rows when the response has no
      error and at least one row, otherwise the list unchanged. */
  function AfterFetch(current: seq<Project>, result: Fetched<Project>): (r: seq<Project>)
    ensures HasRows(result) ==> r == result.data.value
    ensures !HasRows(result) ==> r == current
  {
    if HasRows(result) then result.data.value else current
  }

  /** With the built-in list, the 'other' filter shows the empty message and each
      of the other categories shows one or two projects. */
  lemma DefaultFilterCounts()
    ensures CountOf(DefaultProjects, "frontend") == 2
    ensures CountOf(DefaultProjects, "backend") == 1
    ensures CountOf(DefaultProjects, "fullstack") == 1
    ensures ShowsEmptyMessage(DefaultProjects, "other")
  {
    EmptyMessageIffNoMatch(DefaultProjects, "other");
  }

  /** The section's state cells. */
  class ProjectsSection {
    var activeFilter: string
    var projects: seq<Project>

    constructor ()
      ensures activeFilter == "all" && projects == DefaultProjects
    {
      activeFilter, projects := "all", DefaultProjects;
    }

    method ApplyFetch(result: Fetched<Project>)
      modifies this
      ensures projects == AfterFetch(old(projects), result) && activeFilter == old(activeFilter)
    {
      if result.Response? && !result.error && result.data.Some? && |result.data.value| > 0 {
        projects := result.data.value;
      }
    }

    /** A filter button click. */
    method SetFilter(c: string)
      modifies this
      ensures activeFilter == c && projects == old(projects)
    {
      activeFilter := c;
    }

    function Shown(): seq<Project>
      reads this
    {
      Filtered(projects, activeFilter)
    }
  }
}
