/** The dashboard of the app copy: the current user's tasks, the overdue and upcoming windows,
    the completion metrics, the per-status counts, and the new-project dialog. */
module Dashboard {
  import opened Wrappers
  import opened Seqs
  import opened Text
  import opened Domain
  import opened ProjectContext
  import opened KanbanBoard
  import opened TeamPage

  // ----- the current user's tasks -----

  /** `p.tasks.some(t => t.id === id)`. */
  predicate HoldsTask(p: Project, id: string)
  {
    exists k :: 0 <= k < |p.tasks| && p.tasks[k].id == id
  }

  /** `projects.find(p => p.tasks.some(t => t.id === id))`: the first project holding the task id. */
  function OwnerOf(ps: seq<Project>, id: string): (r: Option<Project>)
    ensures r.None? <==> forall i :: 0 <= i < |ps| ==> !HoldsTask(ps[i], id)
    ensures r.Some? ==> exists i :: 0 <= i < |ps| && ps[i] == r.value && HoldsTask(r.value, id)
                                    && forall j :: 0 <= j < i ==> !HoldsTask(ps[j], id)
  {
    if ps == [] then None
    else if HoldsTask(ps[0], id) then Some(ps[0])
    else
      var r := OwnerOf(ps[1..], id);
      assert forall i :: 0 <= i < |ps[1..]| ==> ps[1..][i] == ps[i + 1];
      r
  }

  /** `project.members.find(m => m.id === task.assigneeId)`; nothing matches a missing assignee. */
  function AssignedMember(p: Project, t: Task): Option<ProjectMember>
  {
    if t.assigneeId.None? then None
    else
      var k := FindIndexById(p.members, t.assigneeId.value);
      if k == -1 then None else Some(p.members[k])
  }

  /** The userTasks filter: the owning project's member with the assignee's id has the user's email. */
  predicate IsUserTask(ps: seq<Project>, email: string, t: Task)
  {
    match OwnerOf(ps, t.id)
    case None => false
    case Some(p) =>
      var m := AssignedMember(p, t);
      m.Some? && m.value.email == email
  }

  function UserTasks(ps: seq<Project>, email: string): seq<Task>
  {
    Filter(AllTasks(ps), (t: Task) => IsUserTask(ps, email, t))
  }

  /** The assigned member has the email exactly when the first member carrying the assignee id has it. */
  lemma AssignedMemberSpec(p: Project, t: Task, email: string)
    ensures var m := AssignedMember(p, t);
      m.Some? && m.value.email == email <==>
        && t.assigneeId.Some?
        && exists k :: 0 <= k < |p.members| && p.members[k].id == t.assigneeId.value
                       && (forall j :: 0 <= j < k ==> p.members[j].id != t.assigneeId.value)
                       && p.members[k].email == email
  {
    if t.assigneeId.Some? {
      var k := FindIndexById(p.members, t.assigneeId.value);
      forall k' | 0 <= k' < |p.members| && p.members[k'].id == t.assigneeId.value
                  && (forall j :: 0 <= j < k' ==> p.members[j].id != t.assigneeId.value)
        ensures k' == k
      {
      }
    }
  }

  /** A task of some project is the user's exactly when, in the first project holding its id, the
      first member carrying the assignee id has the user's email. */
  lemma UserTasksSpec(ps: seq<Project>, email: string, t: Task, i: nat)
    requires i < |ps| && t in ps[i].tasks
    ensures OwnerOf(ps, t.id).Some?
    ensures var p := OwnerOf(ps, t.id).value;
      t in UserTasks(ps, email) <==>
        && t.assigneeId.Some?
        && exists k :: 0 <= k < |p.members| && p.members[k].id == t.assigneeId.value
                       && (forall j :: 0 <= j < k ==> p.members[j].id != t.assigneeId.value)
                       && p.members[k].email == email
  {
    var k :| 0 <= k < |ps[i].tasks| && ps[i].tasks[k] == t;
    assert HoldsTask(ps[i], t.id);
    AllTasksMember(ps, t);
    FilterMember(AllTasks(ps), (t: Task) => IsUserTask(ps, email, t), t);
    AssignedMemberSpec(OwnerOf(ps, t.id).value, t, email);
  }

  // ----- due-date windows -----

  /** `due < today`, both as day numbers. */
  predicate IsOverdue(due: int, today: int)
  {
    due < today
  }

  /** `due >= today && due <= today + 7 days`. */
  predicate IsUpcoming(due: int, today: int)
  {
    today <= due <= today + 7
  }

  lemma OverdueNotUpcoming(due: int, today: int)
    ensures !(IsOverdue(due, today) && IsUpcoming(due, today))
    ensures IsOverdue(due, today) || IsUpcoming(due, today) <==> due <= today + 7
  {
  }

  /** The upcoming list: the user's tasks due within the week and not completed. */
  function UpcomingTasks(ps: seq<Project>, email: string, dayOf: string -> int, today: int): seq<Task>
  {
    Filter(UserTasks(ps, email), (t: Task) => IsUpcoming(dayOf(t.dueDate), today) && t.status != Completed)
  }

  /** The overdue list: the user's tasks due before today and not completed. */
  function OverdueTasks(ps: seq<Project>, email: string, dayOf: string -> int, today: int): seq<Task>
  {
    Filter(UserTasks(ps, email), (t: Task) => IsOverdue(dayOf(t.dueDate), today) && t.status != Completed)
  }

  /** Both lists are drawn from the user's tasks, hold no completed task, and share no task. */
  lemma DueListsSpec(ps: seq<Project>, email: string, dayOf: string -> int, today: int, t: Task)
    ensures t in UpcomingTasks(ps, email, dayOf, today) ==> t in UserTasks(ps, email) && t.status != Completed
    ensures t in OverdueTasks(ps, email, dayOf, today) ==> t in UserTasks(ps, email) && t.status != Completed
    ensures !(t in UpcomingTasks(ps, email, dayOf, today) && t in OverdueTasks(ps, email, dayOf, today))
  {
    var user := UserTasks(ps, email);
    FilterMember(user, (t: Task) => IsUpcoming(dayOf(t.dueDate), today) && t.status != Completed, t);
    FilterMember(user, (t: Task) => IsOverdue(dayOf(t.dueDate), today) && t.status != Completed, t);
  }

  // ----- completion metrics -----

  function TotalTasks(ps: seq<Project>): nat
  {
    |AllTasks(ps)|
  }

  function CompletedTasks(ps: seq<Project>): nat
  {
    Count(AllTasks(ps), (t: Task) => t.status == Completed)
  }

  /** The total counts every task of every project, and the completed count never exceeds it. */
  lemma CompletedAtMostTotal(ps: seq<Project>)
    ensures TotalTasks(ps) == TaskTotal(ps)
    ensures CompletedTasks(ps) <= TotalTasks(ps)
    ensures CompletedTasks(ps) == TotalTasks(ps) <==> forall i :: 0 <= i < |ps| ==> forall k :: 0 <= k < |ps[i].tasks| ==> ps[i].tasks[k].status == Completed
  {
    AllTasksCount(ps);
    var all := AllTasks(ps);
    var p := (t: Task) => t.status == Completed;
    FilterPartition(all, p, (t: Task) => t.status != Completed);
    if CompletedTasks(ps) == TotalTasks(ps) {
      forall x | x in all ensures x.status == Completed {
        FilterMember(all, (t: Task) => t.status != Completed, x);
      }
      forall i, k | 0 <= i < |ps| && 0 <= k < |ps[i].tasks| ensures ps[i].tasks[k].status == Completed {
        AllTasksMember(ps, ps[i].tasks[k]);
      }
    }
    if forall i :: 0 <= i < |ps| ==> forall k :: 0 <= k < |ps[i].tasks| ==> ps[i].tasks[k].status == Completed {
      forall x | x in all ensures p(x) {
        AllTasksMember(ps, x);
      }
      FilterAll(all, p);
    }
  }

  lemma MulMono(k: nat, a: nat, b: nat)
    requires a <= b
    ensures k * a <= k * b
  {
    assert k * b == k * a + k * (b - a);
  }

  /** What the rounding bounds give on the percentage scale. */
  lemma PercentageBounds(completed: nat, total: nat, r: nat)
    requires total > 0
    requires 200 * completed < 2 * total * r + total && 2 * total * r <= 200 * completed + total
    ensures completed <= total ==> r <= 100
    ensures completed == 0 ==> r == 0
    ensures completed == total ==> r == 100
  {
    var x := total * r;
    assert 2 * total * r == 2 * x;
    if completed <= total && r > 100 {
      MulMono(total, 101, r);
    }
    if completed == 0 && r > 0 {
      MulMono(total, 1, r);
    }
    if completed == total && r < 100 {
      MulMono(total, r, 99);
    }
  }

  /** `totalTasks > 0 ? Math.round((completed / total) * 100) : 0`. */
  function CompletionPercentage(completed: nat, total: nat): (r: nat)
    ensures total == 0 ==> r == 0
    ensures total > 0 ==> 200 * completed < 2 * total * r + total && 2 * total * r <= 200 * completed + total
    ensures completed <= total ==> r <= 100
    ensures completed == 0 ==> r == 0
    ensures total > 0 && completed == total ==> r == 100
  {
    if total > 0 then
      var r := RoundDiv(100 * completed, total);
      PercentageBounds(completed, total, r);
      r
    else 0
  }

  // ----- per-status counts -----

  /** A status's count, 0 when it has no key. */
  function CountOf(counts: map<TaskStatus, nat>, s: TaskStatus): nat
  {
    if s in counts then counts[s] else 0
  }

  function CountsTotal(counts: map<TaskStatus, nat>): nat
  {
    CountOf(counts, Backlog) + CountOf(counts, Todo) + CountOf(counts, InProgress)
      + CountOf(counts, Review) + CountOf(counts, Completed)
  }

  /** `allTasks.reduce((acc, task) => { acc[task.status] = (acc[task.status] || 0) + 1; return acc }, {})`. */
  method TasksByStatus(tasks: seq<Task>) returns (counts: map<TaskStatus, nat>)
    ensures forall s: TaskStatus :: s in counts <==> exists i :: 0 <= i < |tasks| && tasks[i].status == s
    ensures forall s: TaskStatus :: CountOf(counts, s) == |Column(tasks, s)|
    ensures CountsTotal(counts) == |tasks|
  {
    counts := map[];
    var i := 0;
    while i < |tasks|
      invariant 0 <= i <= |tasks|
      invariant forall s: TaskStatus :: s in counts <==> exists j :: 0 <= j < i && tasks[j].status == s
      invariant forall s: TaskStatus :: CountOf(counts, s) == |Column(tasks[..i], s)|
    {
      var task := tasks[i];
      assert tasks[..i + 1] == tasks[..i] + [task];
      forall s: TaskStatus
        ensures |Column(tasks[..i + 1], s)| == |Column(tasks[..i], s)| + (if task.status == s then 1 else 0)
      {
        FilterConcat(tasks[..i], [task], (t: Task) => t.status == s);
        assert Column([task], s) == (if task.status == s then [task] else []);
      }
      ghost var before := counts;
      counts := counts[task.status := CountOf(counts, task.status) + 1];
      assert forall s: TaskStatus :: CountOf(counts, s) == CountOf(before, s) + (if task.status == s then 1 else 0);
      i := i + 1;
    }
    assert tasks[..i] == tasks;
    ColumnsPartition(tasks);
  }

  // ----- the new-project dialog -----

  const DefaultColor := "#6366f1"
  const NameRequired := "Project name is required."
  const DescriptionRequired := "Project description is required."
  const CreateFailedMessage := "Failed to create new project (MongoDB Atlas)."

  /** The two guards, in order: the message shown, or none when the form may be sent. */
  function Validate(name: string, description: string): Option<string>
  {
    if Trim(name) == "" then Some(NameRequired)
    else if Trim(description) == "" then Some(DescriptionRequired)
    else None
  }

  /** The name is checked first, then the description; a form passes only when neither is blank. */
  lemma ValidateSpec(name: string, description: string)
    ensures Validate(name, description) == None <==> !IsBlank(name) && !IsBlank(description)
    ensures IsBlank(name) ==> Validate(name, description) == Some(NameRequired)
    ensures !IsBlank(name) && IsBlank(description) ==> Validate(name, description) == Some(DescriptionRequired)
  {
    TrimSpec(name);
    TrimSpec(description);
  }

  /** What the dialog asks createProject for. */
  datatype NewProjectRequest = NewProjectRequest(name: string, description: string, color: string,
                                                 members: seq<ProjectMember>, tasks: seq<Task>)

  /** How the createProject call ends: the project comes back, or an error with its message ("" when it has none). */
  datatype CreateOutcome = Created | CreateFailed(message: string)

  datatype ErrorDialog = ErrorDialog(open: bool, message: string)

  class NewProjectDialog {
    var name: string
    var description: string
    var color: string
    var isOpen: bool
    var isSubmitting: bool
    var errorDialog: ErrorDialog

    constructor ()
      ensures name == "" && description == "" && color == DefaultColor
      ensures !isOpen && !isSubmitting && errorDialog == ErrorDialog(false, "")
    {
      name := "";
      description := "";
      color := DefaultColor;
      isOpen := false;
      isSubmitting := false;
      errorDialog := ErrorDialog(false, "");
    }

    /** handleNewProjectSubmit. A guard failure opens the error dialog and sends nothing; otherwise
        the project is requested with no members and no tasks, a success resets and closes the form,
        and a failure shows the error's message or the fallback. */
    method Submit(outcome: CreateOutcome) returns (request: Option<NewProjectRequest>)
      modifies this
      ensures Validate(old(name), old(description)).Some? ==>
        && request == None
        && errorDialog == ErrorDialog(true, Validate(old(name), old(description)).value)
        && name == old(name) && description == old(description) && color == old(color)
        && isOpen == old(isOpen) && isSubmitting == old(isSubmitting)
      ensures Validate(old(name), old(description)).None? ==>
        && request == Some(NewProjectRequest(old(name), old(description), old(color), [], []))
        && !isSubmitting
        && (outcome.Created? ==>
              name == "" && description == "" && color == DefaultColor && !isOpen
              && errorDialog == old(errorDialog))
        && (outcome.CreateFailed? ==>
              name == old(name) && description == old(description) && color == old(color)
              && isOpen == old(isOpen)
              && errorDialog == ErrorDialog(true, if outcome.message != "" then outcome.message else CreateFailedMessage))
    {
      var invalid := Validate(name, description);
      if invalid.Some? {
        errorDialog := ErrorDialog(true, invalid.value);
        request := None;
        return;
      }
      isSubmitting := true;
      request := Some(NewProjectRequest(name, description, color, [], []));
      match outcome {
        case Created =>
          name := "";
          description := "";
          color := DefaultColor;
          isOpen := false;
        case CreateFailed(message) =>
          errorDialog := ErrorDialog(true, if message != "" then message else CreateFailedMessage);
      }
      isSubmitting := false;
    }
  }
}
