/** The agency task list: the done/to-do toggle, delete with selection clearing, the
    new-task dialog, the five filter tabs with the search, today's progress bar and the
    avatar helpers. Instants are abstract integers; "today" is a half-open interval
    of them and "now" lies inside it. */
module Tasks {
  import opened Wrappers
  import opened Text
  import opened Lists

  datatype TaskStatus = Todo | InProgress | Done

  /** A task; `dueDate` is `None` when it has no due date. */
  datatype Task = Task(
    id: string, title: string, description: string, status: TaskStatus, priority: string,
    dueDate: Option<int>, projectId: Option<string>, assignedTo: Option<string>)

  /** The instants the page reads: the current one and the bounds of the current day. */
  datatype Moments = Moments(now: int, todayStart: int, todayEnd: int)

  /** A consistent reading: the current instant lies inside the current day. */
  type Clock = c: Moments | c.todayStart <= c.now < c.todayEnd witness Moments(0, 0, 1)

  predicate IsToday(d: int, c: Clock) { c.todayStart <= d < c.todayEnd }

  predicate IsPast(d: int, c: Clock) { d < c.now }

  datatype View = All | Today | Upcoming | Overdue | Completed

  // ---- toggling ----

  /** `toggleTaskStatus`: a finished task is reopened, anything else is finished. */
  function Toggled(s: TaskStatus): (r: TaskStatus)
    ensures r == Done <==> s != Done
    ensures r == Todo <==> s == Done
  {
    if s == Done then Todo else Done
  }

  /** Toggling twice restores a to-do or a finished task, but sends an in-progress one to to-do. */
  lemma ToggleTwice(s: TaskStatus)
    ensures Toggled(Toggled(s)) == s <==> s != InProgress
    ensures s == InProgress ==> Toggled(Toggled(s)) == Todo
  {
  }

  /** The list with every task of that id given the new status. */
  function SetTaskStatus(ts: seq<Task>, id: string, s: TaskStatus): (r: seq<Task>)
    ensures |r| == |ts|
    ensures forall i :: 0 <= i < |ts| && ts[i].id != id ==> r[i] == ts[i]
    ensures forall i :: 0 <= i < |ts| && ts[i].id == id ==> r[i] == ts[i].(status := s)
  {
    seq(|ts|, i requires 0 <= i < |ts| => if ts[i].id == id then ts[i].(status := s) else ts[i])
  }

  function IdOf(t: Task): string
  {
    t.id
  }

  /** The list without the deleted task; the rest keep their order. */
  function Without(xs: seq<Task>, id: string): seq<Task>
  {
    WithoutKey(xs, IdOf, id)
  }

  // ---- the views ----

  /** The search test: an empty term lets every task through. */
  predicate SearchOk(t: Task, term: string)
  {
    !(term != "" && !Matches(t.title, term))
  }

  /** Whether a task is shown under a tab, search applied first. */
  predicate Shown(t: Task, view: View, term: string, c: Clock)
  {
    if !SearchOk(t, term) then false
    else match view
      case Completed => t.status == Done
      case Today =>
        t.dueDate.Some? && (IsToday(t.dueDate.value, c)
          || (IsPast(t.dueDate.value, c) && !IsToday(t.dueDate.value, c) && t.status != Done))
      case Upcoming =>
        t.dueDate.Some? && t.dueDate.value > c.now && !IsToday(t.dueDate.value, c) && t.status != Done
      case Overdue =>
        t.dueDate.Some? && IsPast(t.dueDate.value, c) && !IsToday(t.dueDate.value, c) && t.status != Done
      case All => t.status != Done
  }

  function ShownIn(view: View, term: string, c: Clock): Task -> bool
  {
    (t: Task) => Shown(t, view, term, c)
  }

  /** `filteredTasks`. */
  function FilteredTasks(ts: seq<Task>, view: View, term: string, c: Clock): (r: seq<Task>)
    ensures forall i :: 0 <= i < |r| ==> r[i] in ts && Shown(r[i], view, term, c)
    ensures forall i :: 0 <= i < |ts| && Shown(ts[i], view, term, c) ==> ts[i] in r
  {
    FilterMembers(ts, ShownIn(view, term, c));
    Filter(ts, ShownIn(view, term, c))
  }

  /** The views keep the list's order and multiplicities: they map a concatenation to the
      concatenation of the results, and one task to itself or to nothing. */
  lemma FilteredTasksInOrder(a: seq<Task>, b: seq<Task>, t: Task, view: View, term: string, c: Clock)
    ensures FilteredTasks(a + b, view, term, c) == FilteredTasks(a, view, term, c) + FilteredTasks(b, view, term, c)
    ensures FilteredTasks([t], view, term, c) == (if Shown(t, view, term, c) then [t] else [])
  {
    FilterInOrder(a, b, t, ShownIn(view, term, c));
  }

  /** Every task on screen contains the search term, ignoring case. */
  lemma FilteredMatchSearch(ts: seq<Task>, view: View, term: string, c: Clock)
    ensures var r := FilteredTasks(ts, view, term, c);
      forall i :: 0 <= i < |r| ==> Matches(r[i].title, term)
  {
    var r := FilteredTasks(ts, view, term, c);
    forall i | 0 <= i < |r| ensures Matches(r[i].title, term) {
      if term == "" {
        assert Lower(term) == "";
        EmptyIncluded(Lower(r[i].title));
      }
    }
  }

  /** The finished tab shows exactly the finished tasks, the "all" tab exactly the unfinished ones. */
  lemma CompletedAndAll(t: Task, term: string, c: Clock)
    ensures Shown(t, Completed, term, c) <==> SearchOk(t, term) && t.status == Done
    ensures Shown(t, All, term, c) <==> SearchOk(t, term) && t.status != Done
  {
  }

  /** Tasks without a due date never show under today, upcoming or overdue; upcoming and
      overdue never share a task. */
  lemma DatedViews(t: Task, term: string, c: Clock)
    ensures t.dueDate.None? ==> !Shown(t, Today, term, c) && !Shown(t, Upcoming, term, c) && !Shown(t, Overdue, term, c)
    ensures !(Shown(t, Upcoming, term, c) && Shown(t, Overdue, term, c))
  {
  }

  /** The overdue tab is the today tab narrowed to the overdue tasks, in the same order. */
  lemma OverdueWithinToday(ts: seq<Task>, term: string, c: Clock)
    ensures Filter(FilteredTasks(ts, Today, term, c), ShownIn(Overdue, term, c)) == FilteredTasks(ts, Overdue, term, c)
  {
    FilterFilter(ts, ShownIn(Overdue, term, c), ShownIn(Today, term, c));
  }

  // ---- today's progress ----

  function DueToday(c: Clock): Task -> bool
  {
    (t: Task) => t.dueDate.Some? && IsToday(t.dueDate.value, c)
  }

  function IsDone(): Task -> bool
  {
    (t: Task) => t.status == Done
  }

  /** `done / total * 100` on exact reals, 0 when there is nothing to count. */
  function Percent(done: nat, total: nat): real
  {
    if total > 0 then done as real / total as real * 100.0 else 0.0
  }

  /** `progress`: the percentage of today's tasks that are finished. */
  function TodayProgress(ts: seq<Task>, c: Clock): real
  {
    var today := Filter(ts, DueToday(c));
    Percent(Count(today, IsDone()), |today|)
  }

  /** A share of a total is a percentage: between 0 and 100, and 100 exactly when the
      share is everything. */
  lemma PercentBounds(done: nat, total: nat)
    requires done <= total
    ensures var r := Percent(done, total);
      && 0.0 <= r <= 100.0
      && (total == 0 ==> r == 0.0)
      && (total > 0 ==> (r == 100.0 <==> done == total))
  {
    if total > 0 {
      var d, n := done as real, total as real;
      var q := d / n;
      assert q * n == d;
      assert 0.0 <= q <= 1.0;
      assert (q * 100.0) * n == (q * n) * 100.0;
      if q * 100.0 == 100.0 {
        assert q == 1.0;
      }
    }
  }

  /** Today's progress: 0 with no task due today, otherwise between 0 and 100, reaching
      100 exactly when every task due today is finished. */
  lemma TodayProgressBounds(ts: seq<Task>, c: Clock)
    ensures var today := Filter(ts, DueToday(c));
      var r := TodayProgress(ts, c);
      && 0.0 <= r <= 100.0
      && (|today| == 0 ==> r == 0.0)
      && (|today| > 0 ==> (r == 100.0 <==> Count(today, IsDone()) == |today|))
  {
    var today := Filter(ts, DueToday(c));
    PercentBounds(Count(today, IsDone()), |today|);
  }

  // ---- avatars ----

  /** `getInitials`: "?" for an empty name, otherwise its first two characters in capitals. */
  function GetInitials(name: string): (r: string)
    ensures name == "" ==> r == "?"
    ensures name != "" ==> |r| == (if |name| < 2 then |name| else 2)
    ensures name != "" ==> forall i :: 0 <= i < |r| ==> r[i] == UpperChar(name[i])
  {
    if name == "" then "?"
    else Upper(name[..if |name| < 2 then |name| else 2])
  }

  /** `email.split('@')[0]`: the text before the first '@', or all of it. */
  function BeforeAt(email: string): (r: string)
    ensures |r| <= |email| && r == email[..|r|]
    ensures '@' !in r
    ensures |r| < |email| ==> email[|r|] == '@'
  {
    if email == [] || email[0] == '@' then []
    else [email[0]] + BeforeAt(email[1..])
  }

  /** `getUserDisplayName`: the profile name, or the e-mail's local part when there is none. */
  function GetUserDisplayName(name: string, email: string): (r: string)
    ensures name != "" ==> r == name
    ensures name == "" ==> |r| <= |email| && r == email[..|r|] && '@' !in r && (|r| < |email| ==> email[|r|] == '@')
  {
    if name != "" then name else BeforeAt(email)
  }

  /** Without a name, a display name is the local part of the e-mail address. */
  lemma DisplayNameOfAddress(local: string, domain: string)
    requires '@' !in local
    ensures GetUserDisplayName("", local + "@" + domain) == local
  {
    var e := local + "@" + domain;
    assert e[..|local|] == local;
    assert e[|local|] == '@';
  }

  // ---- the page ----

  datatype NewTask = NewTask(
    title: string, description: string, priority: string,
    projectId: string, assignedTo: string, dueDate: string)

  const EmptyNewTask := NewTask("", "", "media", "none", "none", "")

  /** The row `handleAddTask` inserts. */
  datatype TaskInsert = TaskInsert(
    title: string, description: string, priority: string,
    projectId: Option<string>, assignedTo: Option<string>, dueDate: Option<string>, status: TaskStatus)

  /** The "none" choice of a select means no value. */
  function Chosen(v: string): (r: Option<string>)
    ensures r.None? <==> v == "none"
    ensures r.Some? ==> r.value == v
  {
    if v != "none" then Some(v) else None
  }

  function InsertOf(f: NewTask): TaskInsert
  {
    TaskInsert(f.title, f.description, f.priority, Chosen(f.projectId), Chosen(f.assignedTo),
      if f.dueDate == "" then None else Some(f.dueDate), Todo)
  }

  datatype StatusUpdate = StatusUpdate(id: string, status: TaskStatus)

  class TaskList {
    var tasks: seq<Task>
    var selected: Option<Task>
    var newTask: NewTask
    var dialogOpen: bool
    var view: View
    var searchTerm: string

    constructor()
      ensures tasks == [] && selected == None && newTask == EmptyNewTask
      ensures !dialogOpen && view == Today && searchTerm == ""
    {
      tasks := [];
      selected := None;
      newTask := EmptyNewTask;
      dialogOpen := false;
      view := Today;
      searchTerm := "";
    }

    /** `fetchData` for the to-do rows: replaced when the query returns them. */
    method Fetched(rows: Option<seq<Task>>)
      modifies this
      ensures tasks == (if rows.Some? then rows.value else old(tasks))
      ensures selected == old(selected) && newTask == old(newTask) && dialogOpen == old(dialogOpen)
      ensures view == old(view) && searchTerm == old(searchTerm)
    {
      if rows.Some? {
        tasks := rows.value;
      }
    }

    method Select(t: Option<Task>)
      modifies this
      ensures selected == t
      ensures tasks == old(tasks) && newTask == old(newTask) && dialogOpen == old(dialogOpen)
      ensures view == old(view) && searchTerm == old(searchTerm)
    {
      selected := t;
    }

    /** `toggleTaskStatus`: the new status comes from the record the row was drawn with;
        the list changes at once and the status write is sent. */
    method ToggleTaskStatus(task: Task) returns (update: StatusUpdate)
      modifies this
      ensures update == StatusUpdate(task.id, Toggled(task.status))
      ensures tasks == SetTaskStatus(old(tasks), task.id, Toggled(task.status))
      ensures selected == old(selected) && newTask == old(newTask) && dialogOpen == old(dialogOpen)
      ensures view == old(view) && searchTerm == old(searchTerm)
    {
      var s := Toggled(task.status);
      tasks := SetTaskStatus(tasks, task.id, s);
      update := StatusUpdate(task.id, s);
    }

    /** `handleDeleteTask`: asks first; then the item leaves the list whatever the backend
        answers, and the detail pane closes if it showed that task. Returns whether the
        delete was sent. */
    method DeleteTask(id: string, confirmed: bool) returns (sent: bool)
      modifies this
      ensures sent == confirmed
      ensures tasks == (if confirmed then Without(old(tasks), id) else old(tasks))
      ensures selected == (if confirmed && old(selected).Some? && old(selected).value.id == id then None else old(selected))
      ensures newTask == old(newTask) && dialogOpen == old(dialogOpen)
      ensures view == old(view) && searchTerm == old(searchTerm)
    {
      if !confirmed {
        return false;
      }
      sent := true;
      tasks := Without(tasks, id);
      if selected.Some? && selected.value.id == id {
        selected := None;
      }
    }

    /** `handleAddTask`: nothing without a title; a successful insert closes the dialog and
        empties the form. */
    method AddTask(insertOk: bool) returns (insert: Option<TaskInsert>)
      modifies this
      ensures insert.Some? <==> old(newTask).title != ""
      ensures insert.Some? ==> insert.value == InsertOf(old(newTask))
      ensures insert.Some? && insertOk ==> !dialogOpen && newTask == EmptyNewTask
      ensures !(insert.Some? && insertOk) ==> dialogOpen == old(dialogOpen) && newTask == old(newTask)
      ensures tasks == old(tasks) && selected == old(selected)
      ensures view == old(view) && searchTerm == old(searchTerm)
    {
      if newTask.title == "" {
        return None;
      }
      insert := Some(InsertOf(newTask));
      if insertOk {
        dialogOpen := false;
        newTask := EmptyNewTask;
      }
    }
  }

  /** A new task always starts as to-do, and the "none" choices are stored as no value. */
  lemma InsertShape(f: NewTask)
    ensures InsertOf(f).status == Todo
    ensures InsertOf(f).projectId.None? <==> f.projectId == "none"
    ensures InsertOf(f).assignedTo.None? <==> f.assignedTo == "none"
    ensures InsertOf(f).dueDate.None? <==> f.dueDate == ""
  {
  }
}
