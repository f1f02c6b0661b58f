/**
 * The task list page (src/app/tasks/page.tsx): filtering by status and
 * priority, the colour badges, the developers' status selector and the
 * statistics card.
 */
module TasksPage {
  import opened Wrappers
  import opened Collections
  import opened Roles

  datatype TaskStatus = Pending | InProgress | Completed | Blocked
  datatype Priority = Low | Medium | High | Urgent

  datatype Task = Task(
    id: string,
    title: string,
    description: string,
    assignedTo: string,
    assignedBy: string,
    status: TaskStatus,
    priority: Priority,
    createdAt: string,
    dueDate: Option<string>,
    summary: Option<string>)

  /** The strings the page uses for each status and priority. */
  function StatusName(s: TaskStatus): string
  {
    match s
    case Pending => "pending"
    case InProgress => "in-progress"
    case Completed => "completed"
    case Blocked => "blocked"
  }

  function PriorityName(p: Priority): string
  {
    match p
    case Low => "low"
    case Medium => "medium"
    case High => "high"
    case Urgent => "urgent"
  }

  /** The filter callback: the status and the priority control must both let the task through. */
  predicate Kept(t: Task, statusFilter: Selection<TaskStatus>, priorityFilter: Selection<Priority>)
  {
    Selects(statusFilter, t.status) && Selects(priorityFilter, t.priority)
  }

  /** `filteredTasks`: the tasks both controls let through, in list order. */
  function FilteredTasks(tasks: seq<Task>, statusFilter: Selection<TaskStatus>, priorityFilter: Selection<Priority>): (r: seq<Task>)
    ensures forall t :: t in r <==> t in tasks && Kept(t, statusFilter, priorityFilter)
    ensures IsSubsequence(r, tasks) && |r| <= |tasks|
    ensures forall t :: multiset(r)[t] == if Kept(t, statusFilter, priorityFilter) then multiset(tasks)[t] else 0
  {
    var keep := (t: Task) => Kept(t, statusFilter, priorityFilter);
    FilterMultiplicity(tasks, keep);
    Filter(tasks, keep)
  }

  /** With both controls on `'all'` the page shows every task, in order. */
  lemma FilterAllShowsEverything(tasks: seq<Task>)
    ensures FilteredTasks(tasks, All, All) == tasks
  {
    FilterKeepsAll(tasks, (t: Task) => Kept(t, All, All));
  }

  /**
   * Choosing a status, or a priority, where the control said `'all'` can only
   * remove tasks: the new list is an order-preserving subsequence of the old.
   */
  lemma NarrowingStatusShrinks(tasks: seq<Task>, status: TaskStatus, priorityFilter: Selection<Priority>)
    ensures IsSubsequence(FilteredTasks(tasks, Only(status), priorityFilter), FilteredTasks(tasks, All, priorityFilter))
    ensures forall t :: t in FilteredTasks(tasks, Only(status), priorityFilter) ==> t in FilteredTasks(tasks, All, priorityFilter)
  {
    FilterNarrows(tasks, (t: Task) => Kept(t, All, priorityFilter), (t: Task) => Kept(t, Only(status), priorityFilter));
  }

  lemma NarrowingPriorityShrinks(tasks: seq<Task>, statusFilter: Selection<TaskStatus>, priority: Priority)
    ensures IsSubsequence(FilteredTasks(tasks, statusFilter, Only(priority)), FilteredTasks(tasks, statusFilter, All))
    ensures forall t :: t in FilteredTasks(tasks, statusFilter, Only(priority)) ==> t in FilteredTasks(tasks, statusFilter, All)
  {
    FilterNarrows(tasks, (t: Task) => Kept(t, statusFilter, All), (t: Task) => Kept(t, statusFilter, Only(priority)));
  }

  const Grey := "bg-gray-100 text-gray-800"

  /** The badge classes of `getPriorityColor`, which takes any string. */
  function PriorityColor(priority: string): (c: string)
    ensures c == Grey <==> priority !in {"urgent", "high", "medium", "low"}
  {
    if priority == "urgent" then "bg-red-100 text-red-800"
    else if priority == "high" then "bg-yellow-100 text-yellow-800"
    else if priority == "medium" then "bg-blue-100 text-blue-800"
    else if priority == "low" then "bg-green-100 text-green-800"
    else Grey
  }

  /** The badge classes of `getStatusColor`, which takes any string. */
  function StatusColor(status: string): (c: string)
    ensures c == Grey <==> status !in {"completed", "in-progress", "pending", "blocked"}
  {
    if status == "completed" then "bg-green-100 text-green-800"
    else if status == "in-progress" then "bg-yellow-100 text-yellow-800"
    else if status == "pending" then "bg-blue-100 text-blue-800"
    else if status == "blocked" then "bg-red-100 text-red-800"
    else Grey
  }

  /** Every task gets a real badge, and different priorities (statuses) get different ones. */
  lemma BadgesDistinguishValues(p: Priority, p': Priority, s: TaskStatus, s': TaskStatus)
    ensures PriorityColor(PriorityName(p)) != Grey && StatusColor(StatusName(s)) != Grey
    ensures PriorityColor(PriorityName(p)) == PriorityColor(PriorityName(p')) ==> p == p'
    ensures StatusColor(StatusName(s)) == StatusColor(StatusName(s')) ==> s == s'
  {
  }

  /** The status `<select>` beside a task (line 203). */
  predicate ShowsStatusSelector(role: Role, t: Task)
  {
    role == Dev && t.status != Completed
  }

  /**
   * A project manager never sees a status selector, and when the list is
   * filtered to completed tasks nobody does.
   */
  lemma StatusSelectorOnlyForOpenDevTasks(tasks: seq<Task>, role: Role, priorityFilter: Selection<Priority>)
    ensures forall t :: t in tasks ==> !ShowsStatusSelector(Pm, t)
    ensures forall t :: t in FilteredTasks(tasks, Only(Completed), priorityFilter) ==> !ShowsStatusSelector(role, t)
  {
  }

  /** `tasks.filter(t => t.status === s).length`. */
  function CountStatus(tasks: seq<Task>, s: TaskStatus): nat
  {
    Count(tasks, (t: Task) => t.status == s)
  }

  /** Every task has exactly one of the four statuses. */
  lemma {:induction false} StatusCountsPartition(tasks: seq<Task>)
    ensures CountStatus(tasks, Pending) + CountStatus(tasks, InProgress)
          + CountStatus(tasks, Completed) + CountStatus(tasks, Blocked) == |tasks|
  {
    if tasks != [] {
      StatusCountsPartition(tasks[1..]);
    }
  }

  /** The four figures of the statistics card. */
  datatype TaskStatistics = TaskStatistics(total: nat, pending: nat, inProgress: nat, completed: nat)

  /**
   * The statistics card counts the whole list, whatever the controls say;
   * blocked tasks are in the total but have no figure of their own.
   */
  function Statistics(tasks: seq<Task>): (st: TaskStatistics)
    ensures st.total == |tasks|
    ensures st.pending + st.inProgress + st.completed + CountStatus(tasks, Blocked) == st.total
    ensures st.pending + st.inProgress + st.completed <= st.total
  {
    StatusCountsPartition(tasks);
    TaskStatistics(|tasks|, CountStatus(tasks, Pending), CountStatus(tasks, InProgress), CountStatus(tasks, Completed))
  }

  /**
   * `handleStatusUpdate` only writes a console message: the list of tasks
   * the page holds afterwards is the list it held before, so the filtered
   * list and the statistics do not move either.
   */
  function HandleStatusUpdate(tasks: seq<Task>, taskId: string, newStatus: TaskStatus): seq<Task>
  {
    tasks
  }

  lemma StatusUpdateChangesNothingShown(tasks: seq<Task>, taskId: string, newStatus: TaskStatus,
                                       statusFilter: Selection<TaskStatus>, priorityFilter: Selection<Priority>)
    ensures FilteredTasks(HandleStatusUpdate(tasks, taskId, newStatus), statusFilter, priorityFilter)
         == FilteredTasks(tasks, statusFilter, priorityFilter)
    ensures Statistics(HandleStatusUpdate(tasks, taskId, newStatus)) == Statistics(tasks)
  {
  }
}
