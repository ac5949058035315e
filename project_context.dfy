/** The client state store (ProjectProvider): an in-memory list of projects with their nested tasks,
    members and comments, a separately held `currentProject`, and the `isLoading` / `error` flags.
    Each handler awaits one API call; the call's outcome (the value it resolved with, or that it
    threw) is a parameter, and `new Date().toISOString()` / `Date.now()` are parameters too. */
module ProjectContext {
  import opened Wrappers
  import opened Seqs
  import opened Text
  import opened Domain

  // ----- sample data used when the initial fetch fails -----

  const SampleUsers: seq<User> := [
    User("user-1", "Jane Smith", "jane@example.com", "https://i.pravatar.cc/150?u=jane"),
    User("user-2", "John Doe", "john@example.com", "https://i.pravatar.cc/150?u=john"),
    User("user-3", "Sarah Johnson", "sarah@example.com", "https://i.pravatar.cc/150?u=sarah"),
    User("user-4", "Michael Brown", "michael@example.com", "https://i.pravatar.cc/150?u=michael")
  ]

  /** `{...user, role}`: a sample user as a project member. */
  function AsMember(u: User, role: MemberRole): ProjectMember
  {
    ProjectMember(u.id, u.name, u.email, role, u.avatarUrl)
  }

  const SampleProjects: seq<Project> := [
    Project(
      "project-1", "Website Redesign", "Complete overhaul of the company website with new branding",
      [
        Task("task-1", "Design Homepage Mockup", "Create wireframes and visual designs for the new homepage",
          Completed, High, "2025-04-15", Some("user-1"), "user-2", [],
          [Comment("comment-1", "The initial designs look great!", "user-2", "2025-04-01T10:30:00Z")],
          ["design", "homepage"], "2025-03-28T09:00:00Z", "2025-04-02T11:20:00Z"),
        Task("task-2", "Implement Frontend Components", "Code the React components based on the approved designs",
          InProgress, Medium, "2025-04-25", Some("user-3"), "user-2", [], [],
          ["frontend", "react"], "2025-04-03T14:20:00Z", "2025-04-03T14:20:00Z"),
        Task("task-3", "Set Up CI/CD Pipeline", "Configure GitHub Actions for automated testing and deployment",
          Todo, Medium, "2025-04-20", Some("user-4"), "user-2", [], [],
          ["devops", "automation"], "2025-04-05T11:10:00Z", "2025-04-05T11:10:00Z"),
        Task("task-4", "Content Migration Strategy", "Plan the migration of existing content to the new site structure",
          Backlog, Low, "2025-05-01", None, "user-1", [], [],
          ["content", "migration"], "2025-04-06T09:15:00Z", "2025-04-06T09:15:00Z"),
        Task("task-5", "SEO Optimization", "Implement SEO best practices across the new site",
          Todo, High, "2025-04-28", Some("user-1"), "user-2", [], [],
          ["seo", "marketing"], "2025-04-07T13:45:00Z", "2025-04-07T13:45:00Z")
      ],
      [AsMember(SampleUsers[0], Admin), AsMember(SampleUsers[1], Admin),
       AsMember(SampleUsers[2], Member), AsMember(SampleUsers[3], Member)],
      "2025-03-25T08:00:00Z", "2025-04-07T13:45:00Z"),
    Project(
      "project-2", "Mobile App Development", "Building a new mobile app for customer engagement",
      [
        Task("task-6", "User Authentication Flow", "Implement secure login and registration functionality",
          InProgress, High, "2025-04-20", Some("user-3"), "user-1", [], [],
          ["authentication", "security"], "2025-04-01T10:00:00Z", "2025-04-05T15:30:00Z"),
        Task("task-7", "UI Component Library", "Create reusable UI components for the app",
          Todo, Medium, "2025-04-22", Some("user-2"), "user-1", [], [],
          ["ui", "components"], "2025-04-03T11:20:00Z", "2025-04-03T11:20:00Z")
      ],
      [AsMember(SampleUsers[0], Admin), AsMember(SampleUsers[1], Member), AsMember(SampleUsers[2], Member)],
      "2025-03-30T09:15:00Z", "2025-04-05T15:30:00Z")
  ]

  // ----- what the API returns -----

  /** An outcome of an awaited API call: the value it resolved with, or that it threw. */
  datatype Outcome<T> = Resolved(value: T) | Threw

  /** An awaited API call whose value the handler ignores. */
  datatype Call = Succeeded | Failed

  /** Server records carry a Mongo `_id` and possibly an `id`; the empty string stands
      for a missing (falsy) one. */
  datatype RawComment = RawComment(mongoId: string, plainId: string, content: string, userId: string, createdAt: string)

  datatype RawTask = RawTask(
    mongoId: string, plainId: string, title: string, description: string, status: TaskStatus,
    priority: TaskPriority, dueDate: string, assigneeId: Option<string>, creatorId: string,
    attachments: seq<string>, comments: seq<RawComment>, tags: seq<string>, createdAt: string, updatedAt: string)

  datatype RawMember = RawMember(mongoId: string, plainId: string, name: string, email: string, role: MemberRole, avatarUrl: string)

  datatype RawProject = RawProject(
    mongoId: string, plainId: string, name: string, description: string, tasks: seq<RawTask>,
    members: seq<RawMember>, createdAt: string, updatedAt: string)

  /** `record._id || record.id`. */
  function PickId(mongoId: string, plainId: string): (id: string)
    ensures mongoId != "" ==> id == mongoId
    ensures mongoId == "" ==> id == plainId
  {
    if mongoId != "" then mongoId else plainId
  }

  function FormatComment(c: RawComment): Comment
  {
    Comment(PickId(c.mongoId, c.plainId), c.content, c.userId, c.createdAt)
  }

  function FormatTask(t: RawTask): Task
  {
    Task(PickId(t.mongoId, t.plainId), t.title, t.description, t.status, t.priority, t.dueDate,
      t.assigneeId, t.creatorId, t.attachments, Map(t.comments, FormatComment), t.tags, t.createdAt, t.updatedAt)
  }

  /** Members keep `member.id` only; they get no `_id` fallback. */
  function FormatMember(m: RawMember): ProjectMember
  {
    ProjectMember(m.plainId, m.name, m.email, m.role, m.avatarUrl)
  }

  function FormatProject(p: RawProject): Project
  {
    Project(PickId(p.mongoId, p.plainId), p.name, p.description, Map(p.tasks, FormatTask),
      Map(p.members, FormatMember), p.createdAt, p.updatedAt)
  }

  /** The fetch mapping keeps every project, task and comment, in order, and gives each the id
      `_id` when present and `id` otherwise; members keep their `id`. */
  lemma FormatProjectsIds(data: seq<RawProject>)
    ensures var ps := Map(data, FormatProject);
      && |ps| == |data|
      && (forall i :: 0 <= i < |data| ==>
           && ps[i].id == (if data[i].mongoId != "" then data[i].mongoId else data[i].plainId)
           && |ps[i].tasks| == |data[i].tasks|
           && |ps[i].members| == |data[i].members|
           && (forall j :: 0 <= j < |data[i].members| ==> ps[i].members[j].id == data[i].members[j].plainId)
           && (forall j :: 0 <= j < |data[i].tasks| ==>
                var t, rt := ps[i].tasks[j], data[i].tasks[j];
                && t.id == (if rt.mongoId != "" then rt.mongoId else rt.plainId)
                && t.title == rt.title && t.status == rt.status && t.tags == rt.tags
                && |t.comments| == |rt.comments|
                && (forall k :: 0 <= k < |rt.comments| ==>
                     t.comments[k].id == (if rt.comments[k].mongoId != "" then rt.comments[k].mongoId else rt.comments[k].plainId)
                     && t.comments[k].content == rt.comments[k].content)))
  {
  }

  // ----- partial updates -----

  /** `Partial<Project>`: the supplied fields. An `updatedAt` in it is always overridden. */
  datatype ProjectPatch = ProjectPatch(
    id: Option<string>, name: Option<string>, description: Option<string>,
    tasks: Option<seq<Task>>, members: Option<seq<ProjectMember>>, createdAt: Option<string>)

  /** `Partial<Task>`: the supplied fields. An `updatedAt` in it is always overridden. */
  datatype TaskPatch = TaskPatch(
    id: Option<string>, title: Option<string>, description: Option<string>, status: Option<TaskStatus>,
    priority: Option<TaskPriority>, dueDate: Option<string>, assigneeId: Option<Option<string>>,
    creatorId: Option<string>, attachments: Option<seq<string>>, comments: Option<seq<Comment>>,
    tags: Option<seq<string>>, createdAt: Option<string>)

  /** `{ status }`. */
  function StatusPatch(status: TaskStatus): TaskPatch
  {
    TaskPatch(None, None, None, Some(status), None, None, None, None, None, None, None, None)
  }

  /** `{ ...project, ...updates, updatedAt: now }`. */
  function MergeProject(p: Project, u: ProjectPatch, now: string): Project
  {
    Project(u.id.GetOr(p.id), u.name.GetOr(p.name), u.description.GetOr(p.description), u.tasks.GetOr(p.tasks),
      u.members.GetOr(p.members), u.createdAt.GetOr(p.createdAt), now)
  }

  /** `{ ...task, ...updates, updatedAt: now }`. */
  function MergeTask(t: Task, u: TaskPatch, now: string): Task
  {
    Task(u.id.GetOr(t.id), u.title.GetOr(t.title), u.description.GetOr(t.description), u.status.GetOr(t.status),
      u.priority.GetOr(t.priority), u.dueDate.GetOr(t.dueDate), u.assigneeId.GetOr(t.assigneeId),
      u.creatorId.GetOr(t.creatorId), u.attachments.GetOr(t.attachments), u.comments.GetOr(t.comments),
      u.tags.GetOr(t.tags), u.createdAt.GetOr(t.createdAt), now)
  }

  /** A status update changes the status and the timestamp and nothing else. */
  lemma StatusPatchOnlyStatus(t: Task, status: TaskStatus, now: string)
    ensures MergeTask(t, StatusPatch(status), now) == t.(status := status, updatedAt := now)
  {
  }

  /** Supplied fields win, absent fields keep their value, and the timestamp is refreshed. */
  lemma MergeProjectSpec(p: Project, u: ProjectPatch, now: string)
    ensures var q := MergeProject(p, u, now);
      && q.updatedAt == now
      && (u.name.Some? ==> q.name == u.name.value) && (u.name.None? ==> q.name == p.name)
      && (u.description.Some? ==> q.description == u.description.value)
      && (u.description.None? ==> q.description == p.description)
      && (u.id.Some? ==> q.id == u.id.value) && (u.id.None? ==> q.id == p.id)
      && (u.tasks.Some? ==> q.tasks == u.tasks.value) && (u.tasks.None? ==> q.tasks == p.tasks)
      && (u.members.Some? ==> q.members == u.members.value) && (u.members.None? ==> q.members == p.members)
      && (u.createdAt.Some? ==> q.createdAt == u.createdAt.value)
      && (u.createdAt.None? ==> q.createdAt == p.createdAt)
  {
  }

  // ----- the list transformations of the handlers -----

  /** `ps.map(p => p.id === id ? f(p) : p)`. */
  function MapWhereId(ps: seq<Project>, id: string, f: Project -> Project): (r: seq<Project>)
    ensures |r| == |ps|
    ensures forall i :: 0 <= i < |ps| ==> r[i] == if ps[i].id == id then f(ps[i]) else ps[i]
  {
    Map(ps, (p: Project) => if p.id == id then f(p) else p)
  }

  /** `ts.map(t => t.id === id ? f(t) : t)`. */
  function MapTaskWhereId(ts: seq<Task>, id: string, f: Task -> Task): (r: seq<Task>)
    ensures |r| == |ts|
    ensures forall i :: 0 <= i < |ts| ==> r[i] == if ts[i].id == id then f(ts[i]) else ts[i]
  {
    Map(ts, (t: Task) => if t.id == id then f(t) else t)
  }

  /** deleteProject: `projects.filter(p => p.id !== id)`. */
  function RemoveProject(ps: seq<Project>, id: string): seq<Project>
  {
    Filter(ps, (p: Project) => p.id != id)
  }

  /** The projects with a given id. */
  function WithId(ps: seq<Project>, id: string): seq<Project>
  {
    Filter(ps, (p: Project) => p.id == id)
  }

  /** deleteProject drops every project with the id, keeps every other one, keeps their order
      (removing from a concatenation is concatenating the removals), and removes exactly as many
      projects as carried the id. */
  lemma {:induction false} RemoveProjectSpec(ps: seq<Project>, qs: seq<Project>, id: string)
    ensures forall p :: p in RemoveProject(ps, id) ==> p in ps && p.id != id
    ensures forall p :: p in ps && p.id != id ==> p in RemoveProject(ps, id)
    ensures RemoveProject(ps + qs, id) == RemoveProject(ps, id) + RemoveProject(qs, id)
    ensures |RemoveProject(ps, id)| + |WithId(ps, id)| == |ps|
  {
    FilterConcat(ps, qs, (p: Project) => p.id != id);
    FilterPartition(ps, (p: Project) => p.id != id, (p: Project) => p.id == id);
  }

  /** updateProject: merge the updates into every project with the id. */
  function UpdateProjects(ps: seq<Project>, id: string, u: ProjectPatch, now: string): seq<Project>
  {
    MapWhereId(ps, id, p => MergeProject(p, u, now))
  }

  /** The task createTask builds: a temporary id from `Date.now()`, the fields supplied,
      fresh timestamps, and no comments whatever was supplied. */
  function NewTask(t: Task, nowMs: nat, now: string): (r: Task)
  {
    t.(id := "task-" + NatToString(nowMs), comments := [], createdAt := now, updatedAt := now)
  }

  function AppendTask(p: Project, t: Task): Project
  {
    p.(tasks := p.tasks + [t])
  }

  /** createTask's update of the project list. */
  function AddTaskTo(ps: seq<Project>, projectId: string, t: Task): seq<Project>
  {
    MapWhereId(ps, projectId, p => AppendTask(p, t))
  }

  function UpdateTaskInProject(p: Project, taskId: string, u: TaskPatch, now: string): Project
  {
    p.(tasks := MapTaskWhereId(p.tasks, taskId, t => MergeTask(t, u, now)), updatedAt := now)
  }

  /** updateTask's update of the project list. */
  function UpdateTaskIn(ps: seq<Project>, projectId: string, taskId: string, u: TaskPatch, now: string): seq<Project>
  {
    MapWhereId(ps, projectId, p => UpdateTaskInProject(p, taskId, u, now))
  }

  function DeleteTaskInProject(p: Project, taskId: string, now: string): Project
  {
    p.(tasks := Filter(p.tasks, (t: Task) => t.id != taskId), updatedAt := now)
  }

  /** deleteTask's update of the project list. */
  function DeleteTaskIn(ps: seq<Project>, projectId: string, taskId: string, now: string): seq<Project>
  {
    MapWhereId(ps, projectId, p => DeleteTaskInProject(p, taskId, now))
  }

  function AppendComment(t: Task, c: Comment, now: string): Task
  {
    t.(comments := t.comments + [c], updatedAt := now)
  }

  function AddCommentInProject(p: Project, taskId: string, c: Comment, now: string): Project
  {
    p.(tasks := MapTaskWhereId(p.tasks, taskId, t => AppendComment(t, c, now)), updatedAt := now)
  }

  /** addComment's update of the project list. */
  function AddCommentIn(ps: seq<Project>, projectId: string, taskId: string, c: Comment, now: string): seq<Project>
  {
    MapWhereId(ps, projectId, p => AddCommentInProject(p, taskId, c, now))
  }

  /** Applies a project transformation to the current project when its id matches. */
  function SyncCurrent(cur: Option<Project>, id: string, f: Project -> Project): Option<Project>
  {
    if cur.Some? && cur.value.id == id then Some(f(cur.value)) else cur
  }

  // ----- task totals -----

  /** The number of tasks over all projects. */
  function TaskTotal(ps: seq<Project>): nat
  {
    if ps == [] then 0 else |ps[0].tasks| + TaskTotal(ps[1..])
  }

  /** `projects.flatMap(project => project.tasks)`. */
  function AllTasks(ps: seq<Project>): seq<Task>
  {
    Flatten(Map(ps, (p: Project) => p.tasks))
  }

  /** The flattened list holds as many tasks as the per-project counts add up to. */
  lemma {:induction false} AllTasksCount(ps: seq<Project>)
    ensures |AllTasks(ps)| == TaskTotal(ps)
  {
    if ps != [] {
      AllTasksCount(ps[1..]);
      assert Map(ps, (p: Project) => p.tasks)[1..] == Map(ps[1..], (p: Project) => p.tasks);
    }
  }

  /** A task is listed exactly when some project holds it. */
  lemma AllTasksMember(ps: seq<Project>, t: Task)
    ensures t in AllTasks(ps) <==> exists i :: 0 <= i < |ps| && t in ps[i].tasks
  {
    FlattenMember(Map(ps, (p: Project) => p.tasks), t);
  }

  /** The number of projects with a given id. */
  function IdCount(ps: seq<Project>, id: string): nat
  {
    if ps == [] then 0 else (if ps[0].id == id then 1 else 0) + IdCount(ps[1..], id)
  }

  /** createTask adds exactly one task per project carrying the id (so one task when ids are unique). */
  lemma {:induction false} AddTaskToTotal(ps: seq<Project>, projectId: string, t: Task)
    ensures TaskTotal(AddTaskTo(ps, projectId, t)) == TaskTotal(ps) + IdCount(ps, projectId)
  {
    if ps != [] {
      AddTaskToTotal(ps[1..], projectId, t);
      assert AddTaskTo(ps, projectId, t)[1..] == AddTaskTo(ps[1..], projectId, t);
    }
  }

  /** updateTask and a status change never add or drop tasks. */
  lemma {:induction false} UpdateTaskInTotal(ps: seq<Project>, projectId: string, taskId: string, u: TaskPatch, now: string)
    ensures TaskTotal(UpdateTaskIn(ps, projectId, taskId, u, now)) == TaskTotal(ps)
  {
    if ps != [] {
      UpdateTaskInTotal(ps[1..], projectId, taskId, u, now);
      assert UpdateTaskIn(ps, projectId, taskId, u, now)[1..] == UpdateTaskIn(ps[1..], projectId, taskId, u, now);
    }
  }

  /** addComment never adds or drops tasks. */
  lemma {:induction false} AddCommentInTotal(ps: seq<Project>, projectId: string, taskId: string, c: Comment, now: string)
    ensures TaskTotal(AddCommentIn(ps, projectId, taskId, c, now)) == TaskTotal(ps)
  {
    if ps != [] {
      AddCommentInTotal(ps[1..], projectId, taskId, c, now);
      assert AddCommentIn(ps, projectId, taskId, c, now)[1..] == AddCommentIn(ps[1..], projectId, taskId, c, now);
    }
  }

  /** deleteTask never adds tasks; it removes only tasks with the id, only from matching projects. */
  lemma {:induction false} DeleteTaskInTotal(ps: seq<Project>, projectId: string, taskId: string, now: string)
    ensures TaskTotal(DeleteTaskIn(ps, projectId, taskId, now)) <= TaskTotal(ps)
    ensures (forall i :: 0 <= i < |ps| && ps[i].id == projectId ==> forall t :: t in ps[i].tasks ==> t.id != taskId)
            ==> DeleteTaskIn(ps, projectId, taskId, now) == Map(ps, (p: Project) => if p.id == projectId then p.(updatedAt := now) else p)
  {
    if ps != [] {
      DeleteTaskInTotal(ps[1..], projectId, taskId, now);
      assert DeleteTaskIn(ps, projectId, taskId, now)[1..] == DeleteTaskIn(ps[1..], projectId, taskId, now);
      if ps[0].id == projectId && forall t :: t in ps[0].tasks ==> t.id != taskId {
        FilterAll(ps[0].tasks, (t: Task) => t.id != taskId);
      }
      assert Map(ps, (p: Project) => if p.id == projectId then p.(updatedAt := now) else p)[1..]
          == Map(ps[1..], (p: Project) => if p.id == projectId then p.(updatedAt := now) else p);
    }
  }

  // ----- the handlers' effect on one project -----

  /** createTask appends exactly the new task at the end of a matching project and changes nothing else in it. */
  lemma CreateTaskSpec(ps: seq<Project>, projectId: string, t: Task, nowMs: nat, now: string)
    ensures var nt := NewTask(t, nowMs, now);
      var r := AddTaskTo(ps, projectId, nt);
      && nt.id == "task-" + NatToString(nowMs) && nt.comments == [] && nt.createdAt == now && nt.updatedAt == now
      && nt.(id := t.id, comments := t.comments, createdAt := t.createdAt, updatedAt := t.updatedAt) == t
      && |r| == |ps|
      && forall i :: 0 <= i < |ps| ==>
           if ps[i].id == projectId then r[i].tasks == ps[i].tasks + [nt] && r[i].(tasks := ps[i].tasks) == ps[i]
           else r[i] == ps[i]
  {
  }

  /** updateTask merges into the matching task of matching projects only: sibling tasks and other
      projects are unchanged. */
  lemma UpdateTaskSpec(ps: seq<Project>, projectId: string, taskId: string, u: TaskPatch, now: string)
    ensures var r := UpdateTaskIn(ps, projectId, taskId, u, now);
      && |r| == |ps|
      && forall i :: 0 <= i < |ps| ==>
           if ps[i].id != projectId then r[i] == ps[i]
           else
             && r[i].updatedAt == now && r[i].(tasks := ps[i].tasks, updatedAt := ps[i].updatedAt) == ps[i]
             && |r[i].tasks| == |ps[i].tasks|
             && forall j :: 0 <= j < |ps[i].tasks| ==>
                  r[i].tasks[j] == if ps[i].tasks[j].id == taskId then MergeTask(ps[i].tasks[j], u, now) else ps[i].tasks[j]
  {
  }

  /** deleteTask removes every task with the id from matching projects, keeps the others in order,
      stamps those projects and leaves everything else unchanged. */
  lemma DeleteTaskSpec(ps: seq<Project>, projectId: string, taskId: string, now: string)
    ensures var r := DeleteTaskIn(ps, projectId, taskId, now);
      && |r| == |ps|
      && forall i :: 0 <= i < |ps| ==>
           if ps[i].id != projectId then r[i] == ps[i]
           else
             && r[i].updatedAt == now && r[i].(tasks := ps[i].tasks, updatedAt := ps[i].updatedAt) == ps[i]
             && r[i].tasks == Filter(ps[i].tasks, (t: Task) => t.id != taskId)
             && (forall t :: t in r[i].tasks ==> t in ps[i].tasks && t.id != taskId)
             && (forall t :: t in ps[i].tasks && t.id != taskId ==> t in r[i].tasks)
  {
  }

  /** addComment puts the comment last on the matching task, keeping the earlier comments in order;
      that task and its project are stamped and nothing else changes. */
  lemma AddCommentSpec(ps: seq<Project>, projectId: string, taskId: string, c: Comment, now: string)
    ensures var r := AddCommentIn(ps, projectId, taskId, c, now);
      && |r| == |ps|
      && forall i :: 0 <= i < |ps| ==>
           if ps[i].id != projectId then r[i] == ps[i]
           else
             && r[i].updatedAt == now && r[i].(tasks := ps[i].tasks, updatedAt := ps[i].updatedAt) == ps[i]
             && |r[i].tasks| == |ps[i].tasks|
             && forall j :: 0 <= j < |ps[i].tasks| ==>
                  if ps[i].tasks[j].id == taskId then
                    && r[i].tasks[j] == ps[i].tasks[j].(comments := ps[i].tasks[j].comments + [c], updatedAt := now)
                    && r[i].tasks[j].comments == ps[i].tasks[j].comments + [c]
                    && r[i].tasks[j].comments[|r[i].tasks[j].comments| - 1] == c
                  else r[i].tasks[j] == ps[i].tasks[j]
  {
  }

  // ----- the store -----

  /** What createProject sends: the new project without id and timestamps. */
  datatype ProjectInput = ProjectInput(name: string, description: string, tasks: seq<Task>, members: seq<ProjectMember>)

  /** The comment body addComment posts for a task. */
  datatype CommentRequest = CommentRequest(taskId: string, content: string, userId: string)

  const FetchError := "Failed to fetch projects. Using sample data instead."
  const CreateProjectError := "Failed to create project"
  const UpdateProjectError := "Failed to update project"
  const DeleteProjectError := "Failed to delete project"
  const UpdateTaskError := "Failed to update task"
  const DeleteTaskError := "Failed to delete task"
  const AddCommentError := "Failed to add comment"

  class ProjectProvider {
    var projects: seq<Project>
    var currentProject: Option<Project>
    var isLoading: bool
    var error: Option<string>
    /** The fixed demo user, the first sample user. */
    const currentUser: User

    constructor ()
      ensures projects == [] && currentProject == None && !isLoading && error == None
      ensures currentUser == SampleUsers[0]
    {
      projects, currentProject, isLoading, error := [], None, false, None;
      currentUser := SampleUsers[0];
    }

    /** The mount-time fetch: the formatted projects, or the sample data when the fetch throws. */
    method FetchProjects(response: Outcome<seq<RawProject>>)
      modifies this
      ensures !isLoading && currentProject == old(currentProject)
      ensures response.Resolved? ==> projects == Map(response.value, FormatProject) && error == None
      ensures response.Threw? ==> projects == SampleProjects && error == Some(FetchError)
    {
      isLoading := true;
      error := None;
      match response {
        case Resolved(data) =>
          projects := Map(data, FormatProject);
        case Threw =>
          error := Some(FetchError);
          projects := SampleProjects;
      }
      isLoading := false;
    }

    method SetCurrentProject(p: Option<Project>)
      modifies this
      ensures currentProject == p
      ensures projects == old(projects) && isLoading == old(isLoading) && error == old(error)
    {
      currentProject := p;
    }

    /** Appends the created project with no tasks and the members that were sent. */
    method CreateProject(input: ProjectInput, response: Outcome<RawProject>)
      modifies this
      ensures !isLoading && currentProject == old(currentProject)
      ensures response.Resolved? ==>
        var rp := response.value;
        && projects == old(projects) + [Project(PickId(rp.mongoId, rp.plainId), rp.name, rp.description, [],
                                                input.members, rp.createdAt, rp.updatedAt)]
        && error == None
      ensures response.Threw? ==> projects == old(projects) && error == Some(CreateProjectError)
    {
      isLoading := true;
      error := None;
      match response {
        case Resolved(rp) =>
          var newProject := Project(PickId(rp.mongoId, rp.plainId), rp.name, rp.description, [],
            input.members, rp.createdAt, rp.updatedAt);
          projects := projects + [newProject];
        case Threw =>
          error := Some(CreateProjectError);
      }
      isLoading := false;
    }

    method UpdateProject(projectId: string, updates: ProjectPatch, response: Call, now: string)
      modifies this
      ensures !isLoading
      ensures response.Succeeded? ==>
        && projects == UpdateProjects(old(projects), projectId, updates, now)
        && currentProject == SyncCurrent(old(currentProject), projectId, p => MergeProject(p, updates, now))
        && error == None
      ensures response.Failed? ==>
        projects == old(projects) && currentProject == old(currentProject) && error == Some(UpdateProjectError)
    {
      isLoading := true;
      error := None;
      if response.Succeeded? {
        projects := UpdateProjects(projects, projectId, updates, now);
        if currentProject.Some? && currentProject.value.id == projectId {
          currentProject := Some(MergeProject(currentProject.value, updates, now));
        }
      } else {
        error := Some(UpdateProjectError);
      }
      isLoading := false;
    }

    method DeleteProject(projectId: string, response: Call)
      modifies this
      ensures !isLoading
      ensures response.Succeeded? ==>
        && projects == RemoveProject(old(projects), projectId)
        && currentProject == (if old(currentProject).Some? && old(currentProject).value.id == projectId
                              then None else old(currentProject))
        && error == None
      ensures response.Failed? ==>
        projects == old(projects) && currentProject == old(currentProject) && error == Some(DeleteProjectError)
    {
      isLoading := true;
      error := None;
      if response.Succeeded? {
        projects := RemoveProject(projects, projectId);
        if currentProject.Some? && currentProject.value.id == projectId {
          currentProject := None;
        }
      } else {
        error := Some(DeleteProjectError);
      }
      isLoading := false;
    }

    /** Adds the task locally only; no API call is made, so there is no failure path. */
    method CreateTask(projectId: string, task: Task, nowMs: nat, now: string)
      modifies this
      ensures !isLoading && error == None
      ensures projects == AddTaskTo(old(projects), projectId, NewTask(task, nowMs, now))
      ensures currentProject == SyncCurrent(old(currentProject), projectId, p => AppendTask(p, NewTask(task, nowMs, now)))
    {
      isLoading := true;
      error := None;
      var newTask := NewTask(task, nowMs, now);
      projects := AddTaskTo(projects, projectId, newTask);
      if currentProject.Some? && currentProject.value.id == projectId {
        currentProject := Some(AppendTask(currentProject.value, newTask));
      }
      isLoading := false;
    }

    method UpdateTask(projectId: string, taskId: string, updates: TaskPatch, response: Call, now: string)
      modifies this
      ensures !isLoading
      ensures response.Succeeded? ==>
        && projects == UpdateTaskIn(old(projects), projectId, taskId, updates, now)
        && currentProject == SyncCurrent(old(currentProject), projectId, p => UpdateTaskInProject(p, taskId, updates, now))
        && error == None
      ensures response.Failed? ==>
        projects == old(projects) && currentProject == old(currentProject) && error == Some(UpdateTaskError)
    {
      isLoading := true;
      error := None;
      if response.Succeeded? {
        projects := UpdateTaskIn(projects, projectId, taskId, updates, now);
        if currentProject.Some? && currentProject.value.id == projectId {
          currentProject := Some(UpdateTaskInProject(currentProject.value, taskId, updates, now));
        }
      } else {
        error := Some(UpdateTaskError);
      }
      isLoading := false;
    }

    /** Exactly updateTask with `{ status }`. */
    method UpdateTaskStatus(projectId: string, taskId: string, status: TaskStatus, response: Call, now: string)
      modifies this
      ensures !isLoading
      ensures response.Succeeded? ==>
        && projects == UpdateTaskIn(old(projects), projectId, taskId, StatusPatch(status), now)
        && currentProject == SyncCurrent(old(currentProject), projectId, p => UpdateTaskInProject(p, taskId, StatusPatch(status), now))
        && error == None
      ensures response.Failed? ==>
        projects == old(projects) && currentProject == old(currentProject) && error == Some(UpdateTaskError)
    {
      UpdateTask(projectId, taskId, StatusPatch(status), response, now);
    }

    method DeleteTask(projectId: string, taskId: string, response: Call, now: string)
      modifies this
      ensures !isLoading
      ensures response.Succeeded? ==>
        && projects == DeleteTaskIn(old(projects), projectId, taskId, now)
        && currentProject == SyncCurrent(old(currentProject), projectId, p => DeleteTaskInProject(p, taskId, now))
        && error == None
      ensures response.Failed? ==>
        projects == old(projects) && currentProject == old(currentProject) && error == Some(DeleteTaskError)
    {
      isLoading := true;
      error := None;
      if response.Succeeded? {
        projects := DeleteTaskIn(projects, projectId, taskId, now);
        if currentProject.Some? && currentProject.value.id == projectId {
          currentProject := Some(DeleteTaskInProject(currentProject.value, taskId, now));
        }
      } else {
        error := Some(DeleteTaskError);
      }
      isLoading := false;
    }

    /** Posts `{content, userId}` for the current user, then appends the comment the server returned. */
    method AddComment(projectId: string, taskId: string, content: string, response: Outcome<RawComment>, now: string)
      returns (request: CommentRequest)
      modifies this
      ensures request == CommentRequest(taskId, content, currentUser.id)
      ensures !isLoading
      ensures response.Resolved? ==>
        var c := FormatComment(response.value);
        && projects == AddCommentIn(old(projects), projectId, taskId, c, now)
        && currentProject == SyncCurrent(old(currentProject), projectId, p => AddCommentInProject(p, taskId, c, now))
        && error == None
      ensures response.Threw? ==>
        projects == old(projects) && currentProject == old(currentProject) && error == Some(AddCommentError)
    {
      isLoading := true;
      error := None;
      request := CommentRequest(taskId, content, currentUser.id);
      match response {
        case Resolved(raw) =>
          var newComment := FormatComment(raw);
          projects := AddCommentIn(projects, projectId, taskId, newComment, now);
          if currentProject.Some? && currentProject.value.id == projectId {
            currentProject := Some(AddCommentInProject(currentProject.value, taskId, newComment, now));
          }
        case Threw =>
          error := Some(AddCommentError);
      }
      isLoading := false;
    }
  }
}
