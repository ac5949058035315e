# Projexia core in Dafny

Projexia is a project manager with a Kanban board. A user owns projects. Each project holds tasks, and each task has a status, a priority, a due date, tags and comments. Projects also hold members, each with a role. This Dafny project models the logic behind the app. It covers:

- the client-side project store (`ProjectContext`) and how its reducers change the project list and the current project;
- the derived views on four pages:
  - the Kanban board: filtering, grouping by status, drag and drop, avatars built from initials;
  - the team page: the de-duplicated member list, task counts, role lookup, statistic cards;
  - the dashboard: the user's tasks, due-date windows, completion percentage, counts per status, the new-project form;
  - the add-task dialog;
- the local authentication service;
- three server pieces:
  - the project REST routes over a document store, including the member invitation flow and the cascading delete;
  - the register / login / `/me` authentication routes;
  - the sliding-window rate limiter middleware, which keeps each IP's requests from the last minute.

Modules follow the source files:

| module | file | models |
|---|---|---|
| `Wrappers`, `Seqs`, `Text` | `wrappers.dfy`, `seqs.dfy`, `text.dfy` | shared helpers. Among them are the JavaScript string builtins the source relies on: `trim`, `toLowerCase`/`toUpperCase`, `includes`, `split`, `join`, `encodeURIComponent`, `String(n)` |
| `Domain` | `domain.dfy` | the shared types: tasks, projects, members, users |
| `ProjectContext` | `project_context.dfy` | `src/contexts/ProjectContext.tsx`, as the class `ProjectProvider`. Each provider operation is a method over the fields `projects`, `currentProject`, `isLoading` and `error`, and is proved against pure reducer functions |
| `ProjectRoutes` | `project_routes.dfy` | `server/routes/projectRoutes.ts`. The class `ProjectDb` holds the four collections as maps from object ids to documents. One method per route returns the HTTP response |
| `RateLimiter` | `rate_limiter.dfy` | `server/middleware/rateLimiter.js`. The class `RateLimiter` holds the per-IP timestamp map |
| `KanbanBoard`, `KanbanApp` | `kanban_board.dfy`, `kanban_app.dfy` | the two Kanban pages: the collaborative one, and the app one, whose filter is proved equal to it |
| `TeamPage` | `team_page.dfy` | `src/pages/TeamPage.tsx` (collaborative app) |
| `Dashboard` | `dashboard.dfy` | `src/pages/Dashboard.tsx` |
| `AddTaskDialog` | `add_task_dialog.dfy` | `src/components/kanban/AddTaskDialog.tsx`. The class `TaskForm` holds the dialog state |
| `AuthService` | `auth_service.dfy` | `src/services/auth.ts`. The class `AuthService` holds the user list, the current user and the entry that persists in browser storage |
| `AuthRoutes` | `auth_routes.dfy` | `server/routes/auth.js` over the user schema. The class `UserStore` is the users collection |

Network calls, the clock, password hashing, token signing and date parsing are parameters of the operations:

- an API call's outcome is a parameter (`Outcome`/`Call`);
- the current time is passed as `now`;
- bcrypt's hash and compare, and JWT's sign and verify, are passed as functions;
- turning a due date into a calendar day is a `dayOf` function.

## Model

| member | source | states |
|---|---|---|
| `ProjectContext.PickId` | project-manager-app/src/contexts/ProjectContext.tsx:288-321 | A fetched record's id is its server `_id` when that is present, otherwise the plain `id` |
| `ProjectContext.FormatProjectsIds` | project-manager-app/src/contexts/ProjectContext.tsx:288-321 | Formatting the fetched projects keeps every project, task, member and comment, in number and order. Projects, tasks and comments take their id from `_id`, falling back to `id`. Members keep their plain `id`. Titles, statuses, tags and comment contents are copied |
| `ProjectContext.StatusPatchOnlyStatus` | project-manager-app/src/contexts/ProjectContext.tsx:553-559 | The status update merges a patch that changes only the status, plus the `updatedAt` stamp |
| `ProjectContext.MergeProjectSpec` | project-manager-app/src/contexts/ProjectContext.tsx:385-390 | Merging a project patch: each field the patch carries (id, name, description, tasks, members, `createdAt`) takes the patch's value, including the id when the patch carries one. Each field it omits keeps the project's value, and `updatedAt` becomes the new time |
| `ProjectContext.MapWhereId` | project-manager-app/src/contexts/ProjectContext.tsx:385-390 | Mapping over the projects changes exactly the projects with the given id and keeps length and order |
| `ProjectContext.MapTaskWhereId` | project-manager-app/src/contexts/ProjectContext.tsx:508-519 | Mapping over a task list changes exactly the tasks with the given id and keeps length and order |
| `ProjectContext.RemoveProjectSpec` | project-manager-app/src/contexts/ProjectContext.tsx:424 | Deleting a project keeps exactly the projects with another id, in order. The projects removed plus those kept add up to the original list, and deletion distributes over concatenation |
| `ProjectContext.AllTasksCount` | project-manager-app/src/pages/Dashboard.tsx:56 | Flattening every project's tasks gives as many tasks as the projects hold in total |
| `ProjectContext.AllTasksMember` | project-manager-app/src/pages/Dashboard.tsx:56 | A task is in the flattened list iff some project holds it |
| `ProjectContext.AddTaskToTotal` | project-manager-app/src/contexts/ProjectContext.tsx:464-468 | Creating a task raises the task total by the number of projects carrying that id: one for a unique id, zero for an unknown one |
| `ProjectContext.UpdateTaskInTotal` | project-manager-app/src/contexts/ProjectContext.tsx:508-519 | Updating a task never changes the number of tasks |
| `ProjectContext.AddCommentInTotal` | project-manager-app/src/contexts/ProjectContext.tsx:630-648 | Adding a comment never changes the number of tasks |
| `ProjectContext.DeleteTaskInTotal` | project-manager-app/src/contexts/ProjectContext.tsx:568-580 | Deleting a task never raises the task total. Afterwards no project with that id holds a task with the deleted id |
| `ProjectContext.CreateTaskSpec` | project-manager-app/src/contexts/ProjectContext.tsx:456-475 | A new task gets the id `task-<now in ms>`, no comments, and the current time as both `createdAt` and `updatedAt`. Every other field is copied from the input. It is appended last to every project with the id, and nothing else in those projects changes. Other projects are unchanged |
| `ProjectContext.UpdateTaskSpec` | project-manager-app/src/contexts/ProjectContext.tsx:506-532 | Only the matching task of the matching project gets the patch. The project's `updatedAt` is stamped, and every project keeps its task count |
| `ProjectContext.DeleteTaskSpec` | project-manager-app/src/contexts/ProjectContext.tsx:568-590 | The matching project keeps exactly its tasks with another id, in order. Its `updatedAt` becomes the current time, and its other fields are unchanged. Other projects are unchanged |
| `ProjectContext.AddCommentSpec` | project-manager-app/src/contexts/ProjectContext.tsx:630-666 | The comment is appended last to the matching task of the matching project. That task's `updatedAt` and the project's `updatedAt` become the current time, and their other fields are unchanged. Every other task keeps its value, every other project is unchanged, and the task count stays the same |
| `ProjectContext.ProjectProvider.constructor` | project-manager-app/src/contexts/ProjectContext.tsx:268-275 | The store starts with no projects, no current project, no error, not loading, and the first sample user as current user |
| `ProjectContext.ProjectProvider.FetchProjects` | project-manager-app/src/contexts/ProjectContext.tsx:280-335 | On success the projects are the formatted response. On failure they are the sample projects and the fetch error message. Loading always ends |
| `ProjectContext.ProjectProvider.SetCurrentProject` | project-manager-app/src/contexts/ProjectContext.tsx:271 | Only the current project changes |
| `ProjectContext.ProjectProvider.CreateProject` | project-manager-app/src/contexts/ProjectContext.tsx:338-375 | On success the formatted new project is appended. On failure the list is kept and the error is set |
| `ProjectContext.ProjectProvider.UpdateProject` | project-manager-app/src/contexts/ProjectContext.tsx:377-414 | On success the patch is merged into the matching projects, and into the current project when its id matches. On failure nothing but the error changes |
| `ProjectContext.ProjectProvider.DeleteProject` | project-manager-app/src/contexts/ProjectContext.tsx:416-445 | On success the project is removed, and the current project is cleared when it was the deleted one. On failure only the error changes |
| `ProjectContext.ProjectProvider.CreateTask` | project-manager-app/src/contexts/ProjectContext.tsx:448-492 | The new task is added to the list and, when the current project matches, to it as well. The error is cleared |
| `ProjectContext.ProjectProvider.UpdateTask` | project-manager-app/src/contexts/ProjectContext.tsx:494-551 | On success the patch goes to the task in both the list and the current project. On failure only the error changes |
| `ProjectContext.ProjectProvider.UpdateTaskStatus` | project-manager-app/src/contexts/ProjectContext.tsx:553-559 | Has the same effect as `UpdateTask` with a status-only patch |
| `ProjectContext.ProjectProvider.DeleteTask` | project-manager-app/src/contexts/ProjectContext.tsx:561-606 | On success the task leaves both the list and the current project. On failure only the error changes |
| `ProjectContext.ProjectProvider.AddComment` | project-manager-app/src/contexts/ProjectContext.tsx:608-673 | The request carries the task id, the content and the current user's id. On success the formatted comment is appended in both places. On failure only the error changes |
| `ProjectRoutes.Populate` | project-manager-app/server/routes/projectRoutes.ts:29-36 | Populating a list of ids gives one entry per id that has a document, in the order of the ids, each carrying that document. Ids without a document are dropped |
| `ProjectRoutes.Range` | project-manager-app/server/routes/projectRoutes.ts:62-72 | Fresh ids are consecutive, starting at the first free one |
| `ProjectRoutes.InsertMembersSpec` | project-manager-app/server/routes/projectRoutes.ts:62-72 | Inserting the initial members adds one document per input under fresh consecutive ids. Each document belongs to the new project, and the existing documents are untouched |
| `ProjectRoutes.CascadeSpec` | project-manager-app/server/routes/projectRoutes.ts:111-115 | The cascade removes exactly the tasks and members of the deleted project and keeps every other document unchanged |
| `ProjectRoutes.AvatarUrlSafe` | project-manager-app/server/routes/projectRoutes.ts:148 | The avatar URL is the DiceBear prefix followed by the URL-encoded e-mail, and the encoded part contains only URL-safe characters |
| `ProjectRoutes.ProjectDb.constructor` | project-manager-app/server/routes/projectRoutes.ts:12-19 | The store of projects, tasks, comments and members starts empty and consistent |
| `ProjectRoutes.ProjectDb.GetProject` | project-manager-app/server/routes/projectRoutes.ts:27-46 | Returns 404 iff the id is unknown. Otherwise returns 200 with the project populated with its members and its tasks, and their comments |
| `ProjectRoutes.ProjectDb.CreateProject` | project-manager-app/server/routes/projectRoutes.ts:49-78 | A missing name or description is rejected by the save and answered 500 "Server error", and nothing changes. Otherwise the project is saved first with no tasks and no members. The members are then inserted with that project's id, and the project is saved again with their ids. The response is 201 with the project |
| `ProjectRoutes.ProjectDb.UpdateProject` | project-manager-app/server/routes/projectRoutes.ts:81-100 | An unknown id gives 404. Otherwise only the name, description and `updatedAt` of that project change |
| `ProjectRoutes.ProjectDb.DeleteProject` | project-manager-app/server/routes/projectRoutes.ts:103-124 | An unknown id gives 404. Otherwise the project and, by cascade, its tasks and members are removed |
| `ProjectRoutes.ProjectDb.InviteMember` | project-manager-app/server/routes/projectRoutes.ts:127-168 | A missing e-mail or name gives 400. An unknown project gives 404. An e-mail already invited to the project gives 400. Otherwise a member with role Member and the DiceBear avatar is created, its id is appended to the project, and the response is 201 |
| `ProjectRoutes.ProjectDb.RemoveMember` | project-manager-app/server/routes/projectRoutes.ts:171-192 | An unknown project gives 404. Otherwise every occurrence of the member id leaves the project's member list and the member document is deleted, responding 200 |
| `ProjectRoutes.RemoveAllKeepsOthers` | project-manager-app/server/routes/projectRoutes.ts:180-182 | The filtered member list does not contain the removed id, distributes over concatenation, and is unchanged when the id was absent |
| `ProjectRoutes.InviteThenDuplicate` | project-manager-app/server/routes/projectRoutes.ts:142-145 | Once a member is stored, a second invitation with the same e-mail to the same project is a duplicate |
| `RateLimiter.RateLimiter.constructor` | project-manager-app/server/middleware/rateLimiter.js:4 | The IP map starts empty |
| `RateLimiter.RateLimiter.Handle` | project-manager-app/server/middleware/rateLimiter.js:6-19 | The IP's list becomes its timestamps from the last minute with the current one appended. The request passes iff that list has at most 60 entries, and otherwise gets 429. Timestamps stay ordered |
| `RateLimiter.FirstRequestAllowed` | project-manager-app/server/middleware/rateLimiter.js:6-19 | An IP seen for the first time is allowed |
| `RateLimiter.FilterSorted` | project-manager-app/server/middleware/rateLimiter.js:12 | Filtering keeps timestamps ordered |
| `RateLimiter.RetainedOrdered` | project-manager-app/server/middleware/rateLimiter.js:12-14 | The retained list is ordered, ends with the current time, and every entry is within the window |
| `KanbanBoard.ShownProject` | project-manager-collab/src/pages/KanbanBoard.tsx:24 | The board shows the current project, else the first project, and nothing only when both are missing |
| `KanbanBoard.AvailableTagsSpec` | project-manager-collab/src/pages/KanbanBoard.tsx:29-35 | The tag list has no duplicates and holds exactly the tags some task carries |
| `KanbanBoard.SomeIncludedSpec` | project-manager-collab/src/pages/KanbanBoard.tsx:63 | `some(... includes ...)` holds iff the two lists share an element |
| `KanbanBoard.FilteredTasksSpec` | project-manager-collab/src/pages/KanbanBoard.tsx:51-66 | A task is shown iff three tests pass. The search term is empty or a case-insensitive substring of the title or description. No priority is selected, or the task's priority is one of those selected. No tag is selected, or the task shares a tag with the selection |
| `KanbanBoard.NoFiltersShowAll` | project-manager-collab/src/pages/KanbanBoard.tsx:51-66 | With no filters every task is shown, in order |
| `KanbanBoard.GroupByStatus` | project-manager-collab/src/pages/KanbanBoard.tsx:69-79 | Every status has a column, holding exactly the tasks with that status in their original order |
| `KanbanBoard.ColumnsPartition` | project-manager-collab/src/pages/KanbanBoard.tsx:69-79 | The column sizes add up to the number of tasks |
| `KanbanBoard.ColumnsExclusive` | project-manager-collab/src/pages/KanbanBoard.tsx:69-79 | A task is in a column iff that column is its status |
| `KanbanBoard.DropRequest` | project-manager-collab/src/pages/KanbanBoard.tsx:163-176 | A drop asks for a status update iff the drag carried a task id, a task is being dragged, and its status differs from the column. The request names the project, that id and the column |
| `KanbanBoard.Board.constructor` | project-manager-collab/src/pages/KanbanBoard.tsx:21 | No task is being dragged |
| `KanbanBoard.Board.DragStart` | project-manager-collab/src/pages/KanbanBoard.tsx:128-140 | The dragged task is recorded and its id is the drag data |
| `KanbanBoard.Board.DragEnd` | project-manager-collab/src/pages/KanbanBoard.tsx:142-148 | The drag is cleared |
| `KanbanBoard.Board.Drop` | project-manager-collab/src/pages/KanbanBoard.tsx:163-176 | Issues exactly the request `DropRequest` describes |
| `KanbanBoard.InitialsSpec` | project-manager-collab/src/pages/KanbanBoard.tsx:120-126 | There is one initial per non-empty space-separated word, in order. Each is the upper-cased first letter of that word |
| `KanbanBoard.PriorityColorsDistinct` | project-manager-collab/src/pages/KanbanBoard.tsx:97-110 | The four priorities get four distinct colours, and anything else gets the grey default |
| `KanbanApp.AppMatchesAgrees` | project-manager-app/src/pages/KanbanBoard.tsx:50-56 | The app board's filter test on a task is equivalent to the collaborative board's |
| `KanbanApp.AppFilteredTasksAgrees` | project-manager-app/src/pages/KanbanBoard.tsx:50-56 | The app board shows exactly the same tasks, in the same order |
| `KanbanApp.AppDropRequest` | project-manager-app/src/pages/KanbanBoard.tsx:88-93 | The app board asks for an update iff a task is dragged, with the dragged task's id and the column |
| `KanbanApp.AppDropOnOwnColumn` | project-manager-app/src/pages/KanbanBoard.tsx:88-93 | Dropping a task on its own column requests an update on the app board but not on the collaborative one |
| `TeamPage.FindIndexById` | project-manager-collab/src/pages/TeamPage.tsx:41-42 | `findIndex` returns -1 iff no member has the id, otherwise the first index that has it |
| `TeamPage.FirstAtSpec` | project-manager-collab/src/pages/TeamPage.tsx:41-42 | A member passes the filter iff no earlier member has its id |
| `TeamPage.KeepFirstUpToSpec` | project-manager-collab/src/pages/TeamPage.tsx:38-43 | The de-duplicated prefix has distinct ids, has the same set of ids as the prefix, and keeps each id's first member |
| `TeamPage.KeepFirstByIdSpec` | project-manager-collab/src/pages/TeamPage.tsx:38-43 | The member list has pairwise distinct ids. An id appears iff some member has it, and then it is the first such member |
| `TeamPage.TeamMembers` | project-manager-collab/src/pages/TeamPage.tsx:38-43 | With a current project, the page lists that project's members as they are |
| `TeamPage.TeamMembersOfAll` | project-manager-collab/src/pages/TeamPage.tsx:38-43 | Without one, every member of every project is represented once: the ids are distinct and each one appears |
| `TeamPage.HitsAtMostOne` | project-manager-collab/src/pages/TeamPage.tsx:86-91 | A task counts for at most one member of a list with distinct ids, and for none iff it is unassigned or assigned outside the list |
| `TeamPage.CountsForBound` | project-manager-collab/src/pages/TeamPage.tsx:86-91 | Over distinct ids the per-member counts of a task list add up to at most its length |
| `TeamPage.TaskCountsBounded` | project-manager-collab/src/pages/TeamPage.tsx:86-91 | Over distinct members the per-member task counts add up to at most the total number of tasks |
| `TeamPage.TaskCountPerProject` | project-manager-collab/src/pages/TeamPage.tsx:86-91 | A member's task count over the flattened task list equals the sum of that member's task counts in each project |
| `TeamPage.FindProjectById` | project-manager-collab/src/pages/TeamPage.tsx:95 | `find` gives nothing iff no project has the id, otherwise a project with the id |
| `TeamPage.FindMemberById` | project-manager-collab/src/pages/TeamPage.tsx:97 | `find` gives nothing iff no member has the id, otherwise the first member with the id |
| `TeamPage.MemberRoleIn` | project-manager-collab/src/pages/TeamPage.tsx:94-100 | An unknown project gives no role. A role given is that of the first member with the id in the first project with the id. In the project found, no role means no member with the id |
| `TeamPage.AdminCount` | project-manager-collab/src/pages/TeamPage.tsx:119 | The administrator count is at most the member count, and is zero iff there is no administrator |
| `TeamPage.AssignedAtMostTotal` | project-manager-collab/src/pages/TeamPage.tsx:143-145 | Assigned tasks number at most all tasks |
| `TeamPage.RoundDiv` | project-manager-collab/src/pages/TeamPage.tsx:143-145 | The rounded quotient is the nearest integer to a/n, with halves rounded up as `Math.round` does |
| `TeamPage.AverageTasks` | project-manager-collab/src/pages/TeamPage.tsx:142-145 | The average is 0 with no members, otherwise the assigned-task count divided by the member count, rounded to the nearest integer |
| `Dashboard.OwnerOf` | project-manager-app/src/pages/Dashboard.tsx:61 | Gives the first project holding a task with the id, and nothing iff none does |
| `Dashboard.AssignedMemberSpec` | project-manager-app/src/pages/Dashboard.tsx:64 | The assignee lookup gives the first member whose id is the task's assignee, and nothing when the task is unassigned or no member matches |
| `Dashboard.UserTasksSpec` | project-manager-app/src/pages/Dashboard.tsx:59-66 | A task of a project is the user's iff, in the first project holding its id, the first member with its assignee id has the user's e-mail |
| `Dashboard.OverdueNotUpcoming` | project-manager-app/src/pages/Dashboard.tsx:69-84 | No day is both overdue and upcoming. Together the two windows cover every day up to a week ahead |
| `Dashboard.DueListsSpec` | project-manager-app/src/pages/Dashboard.tsx:92-98 | The upcoming and overdue lists are disjoint, and both hold only the user's tasks that are not completed |
| `Dashboard.CompletedAtMostTotal` | project-manager-app/src/pages/Dashboard.tsx:87-90 | The total counts all tasks. Completed tasks number at most the total, and equal it iff every task is completed |
| `Dashboard.PercentageBounds` | project-manager-app/src/pages/Dashboard.tsx:101-102 | Any nearest-integer percentage is at most 100 when completed <= total. It is 0 when nothing is completed and 100 when everything is |
| `Dashboard.CompletionPercentage` | project-manager-app/src/pages/Dashboard.tsx:101-102 | Is 0 with no tasks, otherwise the nearest integer to 100·completed/total. It lies between 0 and 100, and is 100 exactly at completion |
| `Dashboard.TasksByStatus` | project-manager-app/src/pages/Dashboard.tsx:105-108 | A status is a key iff some task has it. Each count is the size of that status's column, and the counts add up to the number of tasks |
| `Dashboard.ValidateSpec` | project-manager-app/src/pages/Dashboard.tsx:158-166 | The form is accepted iff name and description are both non-blank. A blank name reports the name error first, then a blank description its own |
| `Dashboard.NewProjectDialog.constructor` | project-manager-app/src/pages/Dashboard.tsx:37-53 | The form starts empty with the default colour #6366f1, closed, not submitting, and with no error dialog |
| `Dashboard.NewProjectDialog.Submit` | project-manager-app/src/pages/Dashboard.tsx:158-189 | An invalid form sends nothing and only shows the message. A valid one sends the name, description and colour as typed, with no members and no tasks. On success the form is reset and closed. On failure the error dialog opens with the failure message. Submitting always ends |
| `AddTaskDialog.CreatorIdAsWrittenThrows` | project-manager-app/src/components/kanban/AddTaskDialog.tsx:77 | The creator-id expression as written throws for a current project with no members |
| `AddTaskDialog.CreatorId` | project-manager-app/src/components/kanban/AddTaskDialog.tsx:77 | The creator is the first member of the current project, or "" when there is none |
| `AddTaskDialog.CreatorIdAgrees` | project-manager-app/src/components/kanban/AddTaskDialog.tsx:77 | The corrected expression agrees with the original wherever that does not throw, and the original throws exactly for a project with no members |
| `AddTaskDialog.AddedTagsSpec` | project-manager-app/src/components/kanban/AddTaskDialog.tsx:102-107 | A blank or already present tag leaves the list unchanged. Otherwise the trimmed tag is appended. No duplicates are introduced |
| `AddTaskDialog.RemoveAllNoDuplicates` | project-manager-app/src/components/kanban/AddTaskDialog.tsx:109-111 | Removing a tag keeps a duplicate-free list duplicate-free |
| `AddTaskDialog.RemoveUndoesAdd` | project-manager-app/src/components/kanban/AddTaskDialog.tsx:102-111 | Removing a newly added tag restores the list |
| `AddTaskDialog.TaskForm.constructor` | project-manager-app/src/components/kanban/AddTaskDialog.tsx:38-49 | The dialog keeps its `projectId` prop and starts closed, at its defaults: status todo, priority medium, the default due date set, no assignee, no tags |
| `AddTaskDialog.TaskForm.HandleCreateTask` | project-manager-app/src/components/kanban/AddTaskDialog.tsx:51-99 | A blank title or a missing due date creates nothing and changes nothing. Otherwise `createTask` is called with the `projectId` prop and a draft carrying the form's fields and the creator id. The form is reset to its defaults and closed |
| `AddTaskDialog.TaskForm.AddTag` | project-manager-app/src/components/kanban/AddTaskDialog.tsx:102-107 | The tags become `AddedTags` of the input. The input is cleared iff a tag was added, and nothing else changes |
| `AddTaskDialog.TaskForm.RemoveTag` | project-manager-app/src/components/kanban/AddTaskDialog.tsx:109-111 | Every occurrence of the tag is removed, and nothing else changes |
| `AuthService.WithoutPassword` | project-manager-app/src/services/auth.ts:52-53 | The public user has the same id, name, e-mail, avatar and role, and no password |
| `AuthService.FindByCredentials` | project-manager-app/src/services/auth.ts:43-45 | Gives nothing iff no user has both the e-mail and the password, otherwise such a user |
| `AuthService.NewAccount` | project-manager-app/src/services/auth.ts:71-78 | The new account has the given name, e-mail and password, the role "user" and the DiceBear avatar of the e-mail |
| `AuthService.NumberedIdsDistinct` | project-manager-app/src/services/auth.ts:72 | Ids made as `String(position + 1)` are pairwise distinct |
| `AuthService.SignupThenLogin` | project-manager-app/src/services/auth.ts:61-91 | After signing up with a fresh e-mail, logging in with those credentials finds the new account |
| `AuthService.AuthService.constructor` | project-manager-app/src/services/auth.ts:31-37 | The bundled users are loaded, and the stored session, if any, becomes the current user |
| `AuthService.AuthService.GetCurrentUser` | project-manager-app/src/services/auth.ts:98-100 | Returns the current user |
| `AuthService.AuthService.Login` | project-manager-app/src/services/auth.ts:39-59 | Succeeds iff some user has the credentials, and then makes the first such user, without password, current and stored. Otherwise fails with "Invalid email or password" and changes nothing |
| `AuthService.AuthService.Signup` | project-manager-app/src/services/auth.ts:61-91 | A used e-mail fails with "User with this email already exists" and changes nothing. Otherwise the new account is appended and becomes current and stored, without password |
| `AuthService.AuthService.Logout` | project-manager-app/src/services/auth.ts:93-96 | The session is cleared, so nobody is authenticated |
| `AuthRoutes.ProfileOf` | project-manager-app/server/routes/auth.js:88-94 | The profile carries every user field except the password |
| `AuthRoutes.FindByEmail` | project-manager-app/server/routes/auth.js:17 | Gives nothing iff no user has the e-mail, otherwise a stored user with it |
| `AuthRoutes.FindById` | project-manager-app/server/routes/auth.js:116 | Gives nothing iff no user has the id, otherwise a stored user with it |
| `AuthRoutes.RegisterGuard` | project-manager-app/server/routes/auth.js:12-20 | A missing field gives 400 "Please provide all required fields". A used e-mail gives 400 "User already exists with this email". Registration goes ahead iff neither applies |
| `AuthRoutes.LoginResponse` | project-manager-app/server/routes/auth.js:59-99 | A missing field gives 400 with its own message. An unknown e-mail or a wrong password gives 400 "Invalid credentials". Otherwise 200 with the signed token and the profile without password |
| `AuthRoutes.BearerTokenOf` | project-manager-app/server/routes/auth.js:109 | The token read from `Bearer <token>` is `<token>` |
| `AuthRoutes.MeResponse` | project-manager-app/server/routes/auth.js:108-134 | No token gives 401 "No token provided". A token that does not verify gives 401 "Invalid or expired token". A verified id with no user gives 404. Status 200 comes exactly when the token verifies to an id some stored user has, and the body is the profile of the user found by that id |
| `AuthRoutes.FindByEmailAppend` | project-manager-app/server/routes/auth.js:17-29 | After appending a user with a fresh e-mail, looking that e-mail up finds exactly the new user |
| `AuthRoutes.RegisterThenLogin` | project-manager-app/server/routes/auth.js:23-85 | After a successful registration, logging in with the same password succeeds with the new user's profile |
| `AuthRoutes.UserStore.constructor` | project-manager-app/server/models/User.js:3-11 | The collection starts empty |
| `AuthRoutes.UserStore.Register` | project-manager-app/server/routes/auth.js:7-50 | A guard failure responds with the guard's message and stores nothing. Otherwise the user is stored with the hashed password and the next id, and the response is 201 with the token and the user's id, name and e-mail |
| `Domain.StatusesComplete` | project-manager-collab/src/pages/KanbanBoard.tsx:69-79 | The column list names every status exactly once |
| `Text.TrimSpec` | project-manager-app/src/pages/Dashboard.tsx:159-166 | `trim` is empty iff the string is all white space. Otherwise its ends are not white space, and it is a contiguous slice of the input |
| `Text.IncludesSpec` | project-manager-collab/src/pages/KanbanBoard.tsx:54-55 | `includes` holds iff the needle occurs at some position |
| `Text.JoinSplit` | project-manager-collab/src/pages/KanbanBoard.tsx:120-126 | Joining the parts of a split with the same separator gives back the string |
| `Text.EncodeUriComponentSafe` | project-manager-app/server/routes/projectRoutes.ts:148 | `encodeURIComponent` produces only unreserved characters and '%'. Every '%' is followed by two upper-case hex digits |
| `Text.EncodeUriComponentUnreserved` | project-manager-app/server/routes/projectRoutes.ts:148 | A string made only of unreserved characters encodes to itself |
| `Text.ParseNatToString` | project-manager-app/src/services/auth.ts:72 | `String(n)` for a natural number reads back as n |
| `Text.NatToStringInjective` | project-manager-app/src/services/auth.ts:72 | Distinct numbers give distinct strings |

## Left out

- Asynchrony, React rendering and batching, toasts and all JSX markup are left out. Each provider call is modelled as one atomic step that runs to completion. Stale closures over `projects` are also not modelled.
- Network requests, the clock and `Date.now()` are parameters: an API call's outcome, `now` and `nowMs`.
- Dates are left out. ISO timestamps are opaque strings. Due-date comparison takes a `dayOf` function that stands in for `new Date(...)` and the day truncation, and date formatting is not modelled.
- Dashboard.CompletionPercentage: models `Math.round((completed / total) * 100)` as exact rational rounding, not floating point. When the float product lands just below a half, the model's result is one more than the source's. For example, 23 of 40 gives 57 in the source (57.49999999999999 rounded) and 58 in the model; 29 of 200 gives 14 and 15.
- TeamPage.AverageTasks: also uses exact rounding for its single division. At realistic sizes the float quotient rounds the same way.
- `Text.LowerChar`, `Text.UpperChar`: only ASCII letters change case. JavaScript's full Unicode case mapping is not modelled.
- bcrypt hashing and comparison, and JWT signing and verification, are function parameters. Their cryptography and token expiry are not modelled.
- The `/me` route's 401 "Invalid or expired token" is modelled as the verifier returning `None`. Two parts of that route are left out. (1) After sending that 401, the catch block logs an undeclared `err`, which throws a ReferenceError, so its 500 can never be sent. (2) The 500 of the `findById` promise's `.catch` is left out, because the document store cannot fail. For the same reason the model has none of the 500 responses other routes send after a database exception.
- MongoDB is modelled as maps from numeric ids to documents, and `ObjectId` strings as natural numbers. Populate-time string conversion is left out. The Project schema file is not part of this model: name and description are taken as required by that schema, so a falsy one fails the save and the route answers 500.
- Browser storage is the `storedUser` field. JSON serialisation is left out.
- The bundled `users.json` is the constructor parameter `bundled`.
- The dashboard calls `createProject` and reads the new project's name from the result, but `ProjectContext.createProject` resolves to nothing. The model keeps the two files apart and takes the success path as `CreateOutcome.Created`. The chosen colour is carried in the request but is not sent by the provider.
- The app Kanban board calls `updateTask(id, updates)` with a different argument list from the provider's `updateTask(projectId, taskId, updates)`. `KanbanApp.AppDropRequest` models the request the page builds, not how the provider would read it.
- The team page's `getInitials` and the app layout's `getInitials` are the same expression as the Kanban board's and are covered by `KanbanBoard.Initials`.
- The role icons, role badges and status colours of the team page and dashboard are presentation only.
- The server's cache, the membership-set middleware, `authRoutes.ts`, `index.js`/`server.js`, CORS and logging are not part of this model.
- The invitation dialog and the other UI components are not part of this model besides the add-task dialog.

## Findings

| source | as written | input that shows it | evidently intended | confidence | as-written member | corrected member |
|---|---|---|---|---|---|---|
| project-manager-app/src/components/kanban/AddTaskDialog.tsx:77 | `currentProject?.members[0].id` reads `id` of `members[0]` without a guard. For a current project with no members this throws a TypeError before `createTask` runs. Projects created from the dashboard start with `members: []` | a current project whose `members` is `[]`, with a non-blank title and a due date | `members[0]?.id \|\| ""`: an empty creator id when the project has no members | not executed | `AddTaskDialog.CreatorIdAsWritten`, shown by `AddTaskDialog.CreatorIdAsWrittenThrows` | `AddTaskDialog.CreatorId`, related by `AddTaskDialog.CreatorIdAgrees`, and used by `AddTaskDialog.TaskForm.HandleCreateTask` |
