/** The Kanban board page of the collaborative copy: which project it shows, the search /
    priority / tag filter, the five status columns, the tag list, the drop guard, and the initials
    and priority colours on the cards. The grouping and the tag list are also used by the app copy. */
module KanbanBoard {
  import opened Wrappers
  import opened Seqs
  import opened Text
  import opened Domain

  /** `currentProject || (projects.length > 0 ? projects[0] : null)`. */
  function ShownProject(currentProject: Option<Project>, projects: seq<Project>): (r: Option<Project>)
    ensures currentProject.Some? ==> r == currentProject
    ensures currentProject.None? && |projects| > 0 ==> r == Some(projects[0])
    ensures r.None? <==> currentProject.None? && projects == []
  {
    if currentProject.Some? then currentProject
    else if |projects| > 0 then Some(projects[0])
    else None
  }

  // ----- tags -----

  /** `project.tasks.flatMap(task => task.tags)`. */
  function AllTags(tasks: seq<Task>): seq<string>
  {
    Flatten(Map(tasks, (t: Task) => t.tags))
  }

  /** `Array.from(new Set(allTags))`. */
  function AvailableTags(tasks: seq<Task>): seq<string>
  {
    Unique(AllTags(tasks))
  }

  /** The tag list holds each tag some task uses, exactly once, and nothing else. */
  lemma AvailableTagsSpec(tasks: seq<Task>, tag: string)
    ensures tag in AvailableTags(tasks) <==> exists i :: 0 <= i < |tasks| && tag in tasks[i].tags
    ensures NoDuplicates(AvailableTags(tasks))
  {
    var m := Map(tasks, (t: Task) => t.tags);
    FlattenMember(m, tag);
    if tag in AllTags(tasks) {
      var i :| 0 <= i < |AllTags(tasks)| && AllTags(tasks)[i] == tag;
      assert tag in AvailableTags(tasks);
    }
    if tag in AvailableTags(tasks) {
      var i :| 0 <= i < |AvailableTags(tasks)| && AvailableTags(tasks)[i] == tag;
      assert tag in AllTags(tasks);
    }
  }

  // ----- filtering -----

  /** The state of the filter bar. */
  datatype Filters = Filters(searchTerm: string, selectedPriorities: seq<TaskPriority>, selectedTags: seq<string>)

  const NoFilters := Filters("", [], [])

  /** `xs.some(x => ys.includes(x))`. */
  predicate SomeIncluded(xs: seq<string>, ys: seq<string>)
  {
    xs != [] && (xs[0] in ys || SomeIncluded(xs[1..], ys))
  }

  /** The test holds exactly when the two lists share an element, whichever is scanned. */
  lemma {:induction false} SomeIncludedSpec(xs: seq<string>, ys: seq<string>)
    ensures SomeIncluded(xs, ys) <==> exists x :: x in xs && x in ys
  {
    if xs != [] {
      SomeIncludedSpec(xs[1..], ys);
      if exists x :: x in xs && x in ys {
        var x :| x in xs && x in ys;
        if x != xs[0] {
          assert x in xs[1..];
        }
      }
    }
  }

  /** The search test of this copy: an empty term, or a case-insensitive match in title or description. */
  predicate MatchesSearch(t: Task, term: string)
  {
    term == "" || Includes(ToLower(t.title), ToLower(term)) || Includes(ToLower(t.description), ToLower(term))
  }

  predicate MatchesPriority(t: Task, selected: seq<TaskPriority>)
  {
    |selected| == 0 || t.priority in selected
  }

  /** `task.tags.some(tag => selectedTags.includes(tag))`. */
  predicate MatchesTags(t: Task, selected: seq<string>)
  {
    |selected| == 0 || SomeIncluded(t.tags, selected)
  }

  predicate Matches(t: Task, f: Filters)
  {
    MatchesSearch(t, f.searchTerm) && MatchesPriority(t, f.selectedPriorities) && MatchesTags(t, f.selectedTags)
  }

  function FilteredTasks(tasks: seq<Task>, f: Filters): seq<Task>
  {
    Filter(tasks, (t: Task) => Matches(t, f))
  }

  /** A task of the project is shown exactly when it passes all three tests; a tag test
      passes when the task shares a selected tag. */
  lemma FilteredTasksSpec(tasks: seq<Task>, f: Filters, t: Task)
    ensures t in FilteredTasks(tasks, f) <==>
      && t in tasks
      && (f.searchTerm == "" || Includes(ToLower(t.title), ToLower(f.searchTerm))
                             || Includes(ToLower(t.description), ToLower(f.searchTerm)))
      && (f.selectedPriorities == [] || t.priority in f.selectedPriorities)
      && (f.selectedTags == [] || exists tag :: tag in t.tags && tag in f.selectedTags)
  {
    SomeIncludedSpec(t.tags, f.selectedTags);
    if t in tasks && Matches(t, f) {
      var i :| 0 <= i < |tasks| && tasks[i] == t;
    }
  }

  /** With no filter set every task is shown, in order. */
  lemma NoFiltersShowAll(tasks: seq<Task>)
    ensures FilteredTasks(tasks, NoFilters) == tasks
  {
    FilterAll(tasks, (t: Task) => Matches(t, NoFilters));
  }

  // ----- the five columns -----

  /** The tasks of one column: those whose status names it, in their original order. */
  function Column(tasks: seq<Task>, s: TaskStatus): seq<Task>
  {
    Filter(tasks, (t: Task) => t.status == s)
  }

  /** The `columns` record: five empty arrays, then `columns[task.status].push(task)` for each task. */
  method GroupByStatus(tasks: seq<Task>) returns (columns: map<TaskStatus, seq<Task>>)
    ensures forall s: TaskStatus :: s in columns && columns[s] == Column(tasks, s)
  {
    columns := map[Backlog := [], Todo := [], InProgress := [], Review := [], Completed := []];
    var i := 0;
    assert tasks[..0] == [];
    forall s: TaskStatus ensures s in columns && columns[s] == Column([], s) {
      match s
      case Backlog =>
      case Todo =>
      case InProgress =>
      case Review =>
      case Completed =>
    }
    while i < |tasks|
      invariant 0 <= i <= |tasks|
      invariant forall s: TaskStatus :: s in columns && columns[s] == Column(tasks[..i], s)
    {
      var task := tasks[i];
      assert tasks[..i + 1] == tasks[..i] + [task];
      forall s: TaskStatus ensures Column(tasks[..i + 1], s) == Column(tasks[..i], s) + Column([task], s) {
        FilterConcat(tasks[..i], [task], (t: Task) => t.status == s);
      }
      columns := columns[task.status := columns[task.status] + [task]];
      i := i + 1;
    }
    assert tasks[..i] == tasks;
  }

  /** The sum of the column sizes. */
  function ColumnTotal(tasks: seq<Task>): nat
  {
    |Column(tasks, Backlog)| + |Column(tasks, Todo)| + |Column(tasks, InProgress)|
      + |Column(tasks, Review)| + |Column(tasks, Completed)|
  }

  /** Every task lands in exactly one column, so the column sizes add up to the number of tasks. */
  lemma {:induction false} ColumnsPartition(tasks: seq<Task>)
    ensures ColumnTotal(tasks) == |tasks|
  {
    if tasks != [] {
      ColumnsPartition(tasks[1..]);
    }
  }

  /** A task appears in the column of its own status and in no other. */
  lemma ColumnsExclusive(tasks: seq<Task>, t: Task, s: TaskStatus)
    requires t in tasks
    ensures t in Column(tasks, s) <==> t.status == s
  {
    var i :| 0 <= i < |tasks| && tasks[i] == t;
  }

  // ----- drag and drop -----

  /** The status change a drop asks the store for. */
  datatype StatusRequest = StatusRequest(projectId: string, taskId: string, status: TaskStatus)

  /** `if (taskId && draggedTask && draggedTask.status !== status) updateTaskStatus(project.id, taskId, status)`;
      `taskId` is the drag data, "" when there is none. */
  function DropRequest(projectId: string, taskId: string, dragged: Option<Task>, status: TaskStatus): (r: Option<StatusRequest>)
    ensures r.Some? <==> taskId != "" && dragged.Some? && dragged.value.status != status
    ensures r.Some? ==> r.value == StatusRequest(projectId, taskId, status)
  {
    if taskId != "" && dragged.Some? && dragged.value.status != status
    then Some(StatusRequest(projectId, taskId, status))
    else None
  }

  /** The board's drag state. */
  class Board {
    var draggedTask: Option<Task>

    constructor ()
      ensures draggedTask == None
    {
      draggedTask := None;
    }

    /** handleDragStart: remember the task; its id becomes the drag data "taskId". */
    method DragStart(task: Task) returns (taskIdData: string)
      modifies this
      ensures draggedTask == Some(task) && taskIdData == task.id
    {
      draggedTask := Some(task);
      taskIdData := task.id;
    }

    /** handleDragEnd. */
    method DragEnd()
      modifies this
      ensures draggedTask == None
    {
      draggedTask := None;
    }

    /** handleDrop on the column of `status`, with the drag data read from the event. */
    method Drop(projectId: string, taskIdData: string, status: TaskStatus) returns (request: Option<StatusRequest>)
      ensures request == DropRequest(projectId, taskIdData, draggedTask, status)
    {
      request := DropRequest(projectId, taskIdData, draggedTask, status);
    }
  }

  // ----- card decorations -----

  /** The first character of a name part, none for an empty part (`n[0]` is undefined there and
      `join` writes nothing for it). */
  function Head(part: string): string
  {
    if part == [] then [] else [part[0]]
  }

  /** getInitials: `name.split(" ").map(n => n[0]).join("").toUpperCase()`. */
  function Initials(name: string): string
  {
    ToUpper(Flatten(Map(Split(name, ' '), Head)))
  }

  /** The non-empty space-separated parts of a name. */
  function Words(name: string): seq<string>
  {
    Filter(Split(name, ' '), (p: string) => p != [])
  }

  lemma {:induction false} HeadsOfParts(parts: seq<string>)
    ensures var hs := Flatten(Map(parts, Head));
      var ws := Filter(parts, (p: string) => p != []);
      |hs| == |ws| && forall i :: 0 <= i < |ws| ==> hs[i] == ws[i][0]
  {
    if parts != [] {
      HeadsOfParts(parts[1..]);
      assert Map(parts, Head)[1..] == Map(parts[1..], Head);
    }
  }

  /** One initial per non-empty part: the upper-cased first character of that part. */
  lemma InitialsSpec(name: string)
    ensures |Initials(name)| == |Words(name)|
    ensures forall i :: 0 <= i < |Words(name)| ==> Initials(name)[i] == UpperChar(Words(name)[i][0])
  {
    HeadsOfParts(Split(name, ' '));
  }

  /** getPriorityColor, on the priority's string value. */
  function PriorityColor(priority: string): string
  {
    match priority
    case "urgent" => "bg-red-500"
    case "high" => "bg-orange-500"
    case "medium" => "bg-yellow-500"
    case "low" => "bg-blue-500"
    case _ => "bg-gray-500"
  }

  /** The four priorities get four distinct colours, none of them the fallback grey, which every
      other string gets. */
  lemma PriorityColorsDistinct(other: string)
    requires other !in ["urgent", "high", "medium", "low"]
    ensures var cs := [PriorityColor("urgent"), PriorityColor("high"), PriorityColor("medium"), PriorityColor("low")];
      && (forall i, j :: 0 <= i < j < 4 ==> cs[i] != cs[j])
      && (forall i :: 0 <= i < 4 ==> cs[i] != "bg-gray-500")
      && PriorityColor(other) == "bg-gray-500"
  {
  }
}
