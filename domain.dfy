/** The client's data model: the records the React front end keeps for projects, tasks,
    comments, members and users. Timestamps and due dates are ISO-8601 strings there. */
module Domain {
  import opened Wrappers

  datatype TaskPriority = Low | Medium | High | Urgent
  datatype TaskStatus = Backlog | Todo | InProgress | Review | Completed
  datatype MemberRole = Admin | Member | Viewer

  datatype Comment = Comment(id: string, content: string, userId: string, createdAt: string)

  datatype Task = Task(
    id: string,
    title: string,
    description: string,
    status: TaskStatus,
    priority: TaskPriority,
    dueDate: string,
    assigneeId: Option<string>,
    creatorId: string,
    attachments: seq<string>,
    comments: seq<Comment>,
    tags: seq<string>,
    createdAt: string,
    updatedAt: string)

  datatype ProjectMember = ProjectMember(id: string, name: string, email: string, role: MemberRole, avatarUrl: string)

  datatype Project = Project(
    id: string,
    name: string,
    description: string,
    tasks: seq<Task>,
    members: seq<ProjectMember>,
    createdAt: string,
    updatedAt: string)

  datatype User = User(id: string, name: string, email: string, avatarUrl: string)

  /** The five Kanban columns, in the order of the `columns` record. */
  const Statuses: seq<TaskStatus> := [Backlog, Todo, InProgress, Review, Completed]

  /** The string value of a status, as stored and sent over the wire. */
  function StatusName(s: TaskStatus): string
  {
    match s
    case Backlog => "backlog"
    case Todo => "todo"
    case InProgress => "in-progress"
    case Review => "review"
    case Completed => "completed"
  }

  /** The string value of a priority. */
  function PriorityName(p: TaskPriority): string
  {
    match p
    case Low => "low"
    case Medium => "medium"
    case High => "high"
    case Urgent => "urgent"
  }

  /** The string value of a member role. */
  function RoleName(r: MemberRole): string
  {
    match r
    case Admin => "admin"
    case Member => "member"
    case Viewer => "viewer"
  }

  /** Every status has exactly one column. */
  lemma StatusesComplete(s: TaskStatus)
    ensures s in Statuses
    ensures forall i, j :: 0 <= i < j < |Statuses| ==> Statuses[i] != Statuses[j]
  {
  }
}
