/** The home page (src/app/page.tsx): the welcome content per role. */
module HomePage {
  import opened Roles
  import Navigation

  datatype Feature = Feature(icon: string, title: string, description: string)
  datatype Action = Action(href: string, caption: string)
  datatype RoleContent = RoleContent(
    title: string,
    subtitle: string,
    features: seq<Feature>,
    primaryAction: Action,
    secondaryAction: Action)

  /** `getRoleContent`: every role, the fallback included, gets three features and two actions. */
  function RoleContentFor(role: Role): (c: RoleContent)
    ensures |c.features| == 3
    ensures (c.primaryAction.href, c.secondaryAction.href) ==
            match role
            case Sales => ("/upload", "/history")
            case Pm => ("/summaries", "/tasks")
            case Dev => ("/tasks", "/dashboard")
            case Unrecognised(_) => ("/upload", "/dashboard")
  {
    match role
    case Sales =>
      RoleContent(
        "Welcome, Sales Team! 🎯",
        "Upload your client calls and let AI transform them into actionable insights.",
        [ Feature("📤", "Upload Audio", "Upload client call recordings"),
          Feature("⏱️", "Quick Processing", "AI processes your files in minutes"),
          Feature("📋", "Track History", "View all your uploads and summaries") ],
        Action("/upload", "Upload Audio File"),
        Action("/history", "View History"))
    case Pm =>
      RoleContent(
        "Welcome, Project Manager! 📊",
        "Review AI summaries and create tasks for your development team.",
        [ Feature("📊", "AI Summaries", "Review processed call summaries"),
          Feature("✅", "Task Management", "Create and assign tasks to developers"),
          Feature("📈", "Dashboard", "Monitor project progress and insights") ],
        Action("/summaries", "View Summaries"),
        Action("/tasks", "Manage Tasks"))
    case Dev =>
      RoleContent(
        "Welcome, Developer! 💻",
        "View your assigned tasks and track your progress.",
        [ Feature("✅", "My Tasks", "View tasks assigned to you"),
          Feature("🔄", "Update Status", "Mark tasks as in-progress or completed"),
          Feature("📈", "Dashboard", "Track your productivity and progress") ],
        Action("/tasks", "View My Tasks"),
        Action("/dashboard", "View Dashboard"))
    case Unrecognised(_) =>
      RoleContent(
        "Welcome to BridgeSync AI! 🚀",
        "AI-powered workflow management for your team.",
        [ Feature("🎯", "Smart Processing", "AI transforms audio into insights"),
          Feature("👥", "Team Collaboration", "Seamless workflow between roles"),
          Feature("📊", "Analytics", "Track progress and productivity") ],
        Action("/upload", "Get Started"),
        Action("/dashboard", "View Dashboard"))
  }

  /**
   * For each known role both home-page actions lead to a page that is also
   * in that role's navigation menu; the fallback's actions lead to pages its
   * Home-only menu does not list.
   */
  lemma ActionsAgreeWithMenu(role: Role)
    ensures !role.Unrecognised? ==>
              Navigation.Links(Navigation.MenuItems(role), RoleContentFor(role).primaryAction.href) &&
              Navigation.Links(Navigation.MenuItems(role), RoleContentFor(role).secondaryAction.href)
    ensures role.Unrecognised? ==>
              !Navigation.Links(Navigation.MenuItems(role), RoleContentFor(role).primaryAction.href) &&
              !Navigation.Links(Navigation.MenuItems(role), RoleContentFor(role).secondaryAction.href)
  {
    var links := Navigation.Hrefs(Navigation.MenuItems(role));
    var c := RoleContentFor(role);
    match role
    case Sales => assert links == ["/", "/upload", "/history"];
    case Pm => assert links == ["/", "/summaries", "/tasks", "/dashboard"];
    case Dev => assert links == ["/", "/tasks", "/dashboard"];
    case Unrecognised(_) => assert links == ["/"];
  }
}
