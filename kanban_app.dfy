/** The Kanban board page of the app copy. It shows only the current project, has its own filter
    and drop guard, and shares the tag list, the grouping and the colours with the collaborative copy. */
module KanbanApp {
  import opened Wrappers
  import opened Text
  import opened Seqs
  import opened Domain
  import opened KanbanBoard

  /** The search test of this copy, with no separate empty-term case. */
  predicate AppMatchesSearch(t: Task, term: string)
  {
    Includes(ToLower(t.title), ToLower(term)) || Includes(ToLower(t.description), ToLower(term))
  }

  /** `selectedTags.some(tag => task.tags.includes(tag))`: the scan runs over the selection. */
  predicate AppMatchesTags(t: Task, selected: seq<string>)
  {
    |selected| == 0 || SomeIncluded(selected, t.tags)
  }

  predicate AppMatches(t: Task, f: Filters)
  {
    AppMatchesSearch(t, f.searchTerm) && MatchesPriority(t, f.selectedPriorities) && AppMatchesTags(t, f.selectedTags)
  }

  function AppFilteredTasks(tasks: seq<Task>, f: Filters): seq<Task>
  {
    Filter(tasks, (t: Task) => AppMatches(t, f))
  }

  /** The two copies accept the same tasks. An empty term is contained in every string, and
      scanning the task's tags or the selection finds a shared tag alike. */
  lemma AppMatchesAgrees(t: Task, f: Filters)
    ensures AppMatches(t, f) <==> Matches(t, f)
  {
    if f.searchTerm == "" {
      assert ToLower(f.searchTerm) == "";
      IncludesEmpty(ToLower(t.title));
    }
    SomeIncludedSpec(t.tags, f.selectedTags);
    SomeIncludedSpec(f.selectedTags, t.tags);
  }

  /** So the two boards show the same tasks, in the same order. */
  lemma {:induction false} AppFilteredTasksAgrees(tasks: seq<Task>, f: Filters)
    ensures AppFilteredTasks(tasks, f) == FilteredTasks(tasks, f)
  {
    if tasks != [] {
      AppMatchesAgrees(tasks[0], f);
      AppFilteredTasksAgrees(tasks[1..], f);
    }
  }

  /** The update a drop asks for: the dragged task's id with the target status. */
  datatype TaskUpdate = TaskUpdate(taskId: string, status: TaskStatus)

  /** `if (!draggedTask) return; updateTask(draggedTask.id, { status })`. */
  function AppDropRequest(dragged: Option<Task>, status: TaskStatus): (r: Option<TaskUpdate>)
    ensures r.None? <==> dragged.None?
    ensures r.Some? ==> r.value == TaskUpdate(dragged.value.id, status)
  {
    if dragged.None? then None else Some(TaskUpdate(dragged.value.id, status))
  }

  /** Unlike the collaborative guard, this copy also asks for an update when a task is dropped on
      its own column. */
  lemma AppDropOnOwnColumn(t: Task, projectId: string)
    requires t.id != ""
    ensures AppDropRequest(Some(t), t.status).Some?
    ensures DropRequest(projectId, t.id, Some(t), t.status).None?
  {
  }
}
