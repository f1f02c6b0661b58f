/** The dashboard page (src/app/dashboard/page.tsx): the content table per role and the displayed name. */
module DashboardPage {
  import opened Roles

  datatype Stat = Stat(caption: string, value: string, change: string, color: string)
  datatype Chart = Chart(title: string, kind: string, data: string)
  datatype DashboardContent = DashboardContent(title: string, subtitle: string, stats: seq<Stat>, charts: seq<Chart>)

  /** `getDashboardContent`. */
  function DashboardFor(role: Role): (c: DashboardContent)
    ensures !role.Unrecognised? ==> |c.stats| == 4 && |c.charts| == 2
    ensures role.Unrecognised? ==> c == DashboardContent("Dashboard", "Overview of your activities", [], [])
  {
    match role
    case Sales =>
      DashboardContent(
        "Sales Dashboard",
        "Track your uploads and client interactions",
        [ Stat("Files Uploaded", "24", "+12%", "text-blue-600"),
          Stat("Processing Time", "2.3 min", "-15%", "text-green-600"),
          Stat("Client Calls", "18", "+8%", "text-purple-600"),
          Stat("Success Rate", "94%", "+3%", "text-cyan-600") ],
        [ Chart("Upload Activity", "line", "Weekly upload trends"),
          Chart("Processing Status", "pie", "Completed vs Processing") ])
    case Pm =>
      DashboardContent(
        "Project Management Dashboard",
        "Monitor team productivity and project progress",
        [ Stat("Active Tasks", "12", "+3", "text-blue-600"),
          Stat("Completed This Week", "8", "+2", "text-green-600"),
          Stat("Team Velocity", "85%", "+5%", "text-purple-600"),
          Stat("On-Time Delivery", "92%", "+2%", "text-cyan-600") ],
        [ Chart("Task Status Distribution", "pie", "Pending, In Progress, Completed"),
          Chart("Team Performance", "bar", "Individual developer metrics") ])
    case Dev =>
      DashboardContent(
        "Developer Dashboard",
        "Track your tasks and productivity",
        [ Stat("Assigned Tasks", "6", "+1", "text-blue-600"),
          Stat("Completed Today", "2", "+1", "text-green-600"),
          Stat("Hours Worked", "6.5", "+0.5", "text-purple-600"),
          Stat("Code Quality", "A+", "Stable", "text-cyan-600") ],
        [ Chart("Task Completion Rate", "line", "Daily completion trends"),
          Chart("Time Distribution", "doughnut", "Coding, Testing, Documentation") ])
    case Unrecognised(_) =>
      DashboardContent("Dashboard", "Overview of your activities", [], [])
  }

  /**
   * The title tells the three known roles apart, and tells each of them
   * from the generic dashboard.
   */
  lemma TitleIdentifiesRole(r: Role, r': Role)
    ensures DashboardFor(r).title == DashboardFor(r').title <==> (r == r' || (r.Unrecognised? && r'.Unrecognised?))
  {
  }

  /** The `userName` passed to the layout (line 71). */
  function DisplayName(role: Role): (name: string)
    ensures name == "Project Manager" <==> role == Pm
    ensures name == "Developer" <==> role == Dev
    ensures role != Pm && role != Dev ==> name == "Sales"
  {
    if role == Pm then "Project Manager" else if role == Dev then "Developer" else "Sales"
  }
}
