/** The server's project routes: GET, POST, PUT and DELETE of a project, inviting a member and
    removing one. The Mongo collections are maps from object id to document, held by one store
    object; a counter stands for ObjectId generation. `new Date()` is the `now` parameter. */
module ProjectRoutes {
  import opened Wrappers
  import opened Seqs
  import opened Text

  type ObjectId = nat

  datatype ProjectDoc = ProjectDoc(
    name: string, description: string, tasks: seq<ObjectId>, members: seq<ObjectId>, createdAt: int, updatedAt: int)

  datatype MemberDoc = MemberDoc(name: string, email: string, role: string, avatarUrl: string, projectId: ObjectId)

  /** A task document; only its owning project and its comment references matter here. */
  datatype TaskDoc = TaskDoc(title: string, description: string, status: string, projectId: ObjectId, comments: seq<ObjectId>)

  datatype CommentDoc = CommentDoc(content: string, userId: string, taskId: ObjectId, createdAt: int)

  /** A document together with its `_id`. */
  datatype Entry<V> = Entry(id: ObjectId, doc: V)

  datatype PopulatedTask = PopulatedTask(id: ObjectId, task: TaskDoc, comments: seq<Entry<CommentDoc>>)

  datatype Body =
    | ProjectJson(project: Entry<ProjectDoc>)
    | PopulatedJson(project: Entry<ProjectDoc>, tasks: seq<PopulatedTask>, members: seq<Entry<MemberDoc>>)
    | MemberJson(member: Entry<MemberDoc>)
    | Message(text: string)

  datatype Response = Response(status: nat, body: Body)

  const ServerError := Response(500, Message("Server error"))
  const ProjectNotFound := Response(404, Message("Project not found"))

  /** A request-body field that JavaScript treats as false in `if (!x)` and `x || y`:
      missing, or the empty string. */
  predicate Falsy(x: Option<string>)
  {
    x.None? || x.value == ""
  }

  /** A member as sent in the body of POST /. */
  datatype MemberInput = MemberInput(name: string, email: string, role: string, avatarUrl: string)

  /** The body of POST /: `{ name, description, members }`. */
  datatype CreateBody = CreateBody(name: Option<string>, description: Option<string>, members: Option<seq<MemberInput>>)

  /** The body of PUT /:id. */
  datatype UpdateBody = UpdateBody(name: Option<string>, description: Option<string>)

  /** The body of POST /:id/invite. */
  datatype InviteBody = InviteBody(email: Option<string>, role: Option<string>, name: Option<string>)

  /** `.populate(path)` over an array of references: the referenced documents in order, with
      references to missing documents dropped. */
  function Populate<V>(ids: seq<ObjectId>, m: map<ObjectId, V>): (r: seq<Entry<V>>)
    ensures forall i :: 0 <= i < |r| ==> r[i].id in ids && r[i].id in m && r[i].doc == m[r[i].id]
    ensures forall i :: 0 <= i < |ids| && ids[i] in m ==> Entry(ids[i], m[ids[i]]) in r
    ensures Map(r, (e: Entry<V>) => e.id) == Filter(ids, (k: ObjectId) => k in m)
  {
    if ids == [] then []
    else (if ids[0] in m then [Entry(ids[0], m[ids[0]])] else []) + Populate(ids[1..], m)
  }

  /** The consecutive ids `first, first + 1, ..., first + n - 1`. */
  function Range(first: nat, n: nat): (r: seq<ObjectId>)
    ensures |r| == n
    ensures forall i :: 0 <= i < n ==> r[i] == first + i
  {
    if n == 0 then [] else Range(first, n - 1) + [first + n - 1]
  }

  /** `insertMany(members.map(m => ({...m, projectId})))`: the inputs stored under consecutive fresh ids. */
  function InsertMembers(m: map<ObjectId, MemberDoc>, inputs: seq<MemberInput>, projectId: ObjectId, first: nat)
    : map<ObjectId, MemberDoc>
    decreases |inputs|
  {
    if inputs == [] then m
    else
      var last := inputs[|inputs| - 1];
      InsertMembers(m, inputs[..|inputs| - 1], projectId, first)[first + |inputs| - 1 :=
        MemberDoc(last.name, last.email, last.role, last.avatarUrl, projectId)]
  }

  /** Inserted members get exactly the fresh ids, each one the matching input with the new
      project id, and the documents already stored are untouched. */
  lemma {:induction false} InsertMembersSpec(m: map<ObjectId, MemberDoc>, inputs: seq<MemberInput>, projectId: ObjectId, first: nat)
    requires forall k :: k in m ==> k < first
    ensures var r := InsertMembers(m, inputs, projectId, first);
      && (forall k :: k in r <==> k in m || first <= k < first + |inputs|)
      && (forall k :: k in m ==> r[k] == m[k])
      && (forall i :: 0 <= i < |inputs| ==>
            r[first + i] == MemberDoc(inputs[i].name, inputs[i].email, inputs[i].role, inputs[i].avatarUrl, projectId))
    decreases |inputs|
  {
    if inputs != [] {
      var init := inputs[..|inputs| - 1];
      InsertMembersSpec(m, init, projectId, first);
      assert forall i :: 0 <= i < |init| ==> init[i] == inputs[i];
    }
  }

  /** `Task.deleteMany({ projectId })`. */
  function TasksWithout(m: map<ObjectId, TaskDoc>, projectId: ObjectId): map<ObjectId, TaskDoc>
  {
    map k | k in m && m[k].projectId != projectId :: m[k]
  }

  /** `ProjectMember.deleteMany({ projectId })`. */
  function MembersWithout(m: map<ObjectId, MemberDoc>, projectId: ObjectId): map<ObjectId, MemberDoc>
  {
    map k | k in m && m[k].projectId != projectId :: m[k]
  }

  /** The cascade leaves no task or member of the project and every other record untouched. */
  lemma CascadeSpec(tasks: map<ObjectId, TaskDoc>, members: map<ObjectId, MemberDoc>, projectId: ObjectId)
    ensures forall k :: k in TasksWithout(tasks, projectId) <==> k in tasks && tasks[k].projectId != projectId
    ensures forall k :: k in TasksWithout(tasks, projectId) ==> TasksWithout(tasks, projectId)[k] == tasks[k]
    ensures forall k :: k in MembersWithout(members, projectId) <==> k in members && members[k].projectId != projectId
    ensures forall k :: k in MembersWithout(members, projectId) ==> MembersWithout(members, projectId)[k] == members[k]
  {
  }

  /** `ProjectMember.findOne({ email, projectId })` finds a document. */
  predicate AlreadyInvited(members: map<ObjectId, MemberDoc>, email: string, projectId: ObjectId)
  {
    exists k :: k in members && members[k].email == email && members[k].projectId == projectId
  }

  /** The placeholder avatar derived from the email. */
  function AvatarUrl(email: string): string
  {
    "https://api.dicebear.com/7.x/avataaars/svg?seed=" + EncodeUriComponent(email)
  }

  /** The avatar URL is the fixed prefix and a seed made only of URI-safe characters. */
  lemma AvatarUrlSafe(email: string)
    ensures var url := AvatarUrl(email);
      var prefix := "https://api.dicebear.com/7.x/avataaars/svg?seed=";
      && StartsWith(url, prefix)
      && forall i :: |prefix| <= i < |url| ==> IsUriSafe(url[i])
  {
    var prefix := "https://api.dicebear.com/7.x/avataaars/svg?seed=";
    EncodeUriComponentSafe(email);
    var url := AvatarUrl(email);
    assert url[..|prefix|] == prefix;
    forall i | |prefix| <= i < |url| ensures IsUriSafe(url[i]) {
      assert url[i] == EncodeUriComponent(email)[i - |prefix|];
    }
  }

  class ProjectDb {
    var projects: map<ObjectId, ProjectDoc>
    var members: map<ObjectId, MemberDoc>
    var tasks: map<ObjectId, TaskDoc>
    var comments: map<ObjectId, CommentDoc>
    /** The next object id to hand out; every stored id is smaller. */
    var nextId: ObjectId

    ghost predicate Valid()
      reads this
    {
      && (forall k :: k in projects ==> k < nextId)
      && (forall k :: k in members ==> k < nextId)
      && (forall k :: k in tasks ==> k < nextId)
      && (forall k :: k in comments ==> k < nextId)
    }

    constructor ()
      ensures Valid()
      ensures projects == map[] && members == map[] && tasks == map[] && comments == map[]
    {
      projects, members, tasks, comments := map[], map[], map[], map[];
      nextId := 0;
    }

    /** The populated document GET /:id returns: tasks with their comments, and members. */
    function Populated(id: ObjectId): Body
      reads this
      requires id in projects
    {
      var p := projects[id];
      var cs := comments;
      PopulatedJson(Entry(id, p),
        Map(Populate(p.tasks, tasks), (t: Entry<TaskDoc>) => PopulatedTask(t.id, t.doc, Populate(t.doc.comments, cs))),
        Populate(p.members, members))
    }

    /** GET /:id. */
    method GetProject(id: ObjectId) returns (res: Response)
      ensures res.status == 404 <==> id !in projects
      ensures id !in projects ==> res == ProjectNotFound
      ensures id in projects ==> res.status == 200 && res.body == Populated(id)
    {
      if id !in projects {
        return ProjectNotFound;
      }
      res := Response(200, Populated(id));
    }

    /** POST /: save the project with no tasks and no members, then insert the supplied members
        under the new project and store their ids on it. A missing or empty name or description
        fails the schema's `required` validation, which the route reports as a server error. */
    method CreateProject(body: CreateBody, now: int) returns (res: Response)
      requires Valid()
      modifies this
      ensures Valid()
      ensures tasks == old(tasks) && comments == old(comments)
      ensures Falsy(body.name) || Falsy(body.description) ==>
        res == ServerError && projects == old(projects) && members == old(members)
      ensures !Falsy(body.name) && !Falsy(body.description) ==>
        var id := old(nextId);
        var inputs := body.members.GetOr([]);
        var doc := ProjectDoc(body.name.value, body.description.value, [], Range(id + 1, |inputs|), now, now);
        && id !in old(projects)
        && projects == old(projects)[id := doc]
        && members == InsertMembers(old(members), inputs, id, id + 1)
        && res == Response(201, ProjectJson(Entry(id, doc)))
    {
      if Falsy(body.name) || Falsy(body.description) {
        return ServerError;
      }
      var id := nextId;
      nextId := nextId + 1;
      var saved := ProjectDoc(body.name.value, body.description.value, [], [], now, now);
      projects := projects[id := saved];
      var inputs := body.members.GetOr([]);
      if |inputs| > 0 {
        InsertMembersSpec(members, inputs, id, nextId);
        members := InsertMembers(members, inputs, id, nextId);
        saved := saved.(members := Range(nextId, |inputs|));
        nextId := nextId + |inputs|;
        projects := projects[id := saved];
      }
      res := Response(201, ProjectJson(Entry(id, saved)));
    }

    /** PUT /:id: a missing or empty name or description keeps the stored one; the update time is refreshed. */
    method UpdateProject(id: ObjectId, body: UpdateBody, now: int) returns (res: Response)
      requires Valid()
      modifies this
      ensures Valid()
      ensures members == old(members) && tasks == old(tasks) && comments == old(comments) && nextId == old(nextId)
      ensures id !in old(projects) ==> res == ProjectNotFound && projects == old(projects)
      ensures id in old(projects) ==>
        var p := old(projects)[id];
        var q := p.(name := if Falsy(body.name) then p.name else body.name.value,
                    description := if Falsy(body.description) then p.description else body.description.value,
                    updatedAt := now);
        projects == old(projects)[id := q] && res == Response(200, ProjectJson(Entry(id, q)))
    {
      if id !in projects {
        return ProjectNotFound;
      }
      var p := projects[id];
      p := p.(name := if Falsy(body.name) then p.name else body.name.value);
      p := p.(description := if Falsy(body.description) then p.description else body.description.value);
      p := p.(updatedAt := now);
      projects := projects[id := p];
      res := Response(200, ProjectJson(Entry(id, p)));
    }

    /** DELETE /:id: remove the project's tasks, then its members, then the project. */
    method DeleteProject(id: ObjectId) returns (res: Response)
      requires Valid()
      modifies this
      ensures Valid()
      ensures comments == old(comments) && nextId == old(nextId)
      ensures id !in old(projects) ==>
        res == ProjectNotFound && projects == old(projects) && members == old(members) && tasks == old(tasks)
      ensures id in old(projects) ==>
        && tasks == TasksWithout(old(tasks), id)
        && members == MembersWithout(old(members), id)
        && projects == old(projects) - {id}
        && res == Response(200, Message("Project deleted successfully"))
    {
      if id !in projects {
        return ProjectNotFound;
      }
      tasks := TasksWithout(tasks, id);
      members := MembersWithout(members, id);
      projects := projects - {id};
      res := Response(200, Message("Project deleted successfully"));
    }

    /** POST /:id/invite. */
    method InviteMember(id: ObjectId, body: InviteBody) returns (res: Response)
      requires Valid()
      modifies this
      ensures Valid()
      ensures tasks == old(tasks) && comments == old(comments)
      ensures Falsy(body.email) || Falsy(body.name) ==>
        res == Response(400, Message("Email and name are required"))
        && projects == old(projects) && members == old(members)
      ensures !Falsy(body.email) && !Falsy(body.name) && id !in old(projects) ==>
        res == ProjectNotFound && projects == old(projects) && members == old(members)
      ensures !Falsy(body.email) && !Falsy(body.name) && id in old(projects) && AlreadyInvited(old(members), body.email.value, id) ==>
        res == Response(400, Message("Member already invited to this project"))
        && projects == old(projects) && members == old(members)
      ensures !Falsy(body.email) && !Falsy(body.name) && id in old(projects) && !AlreadyInvited(old(members), body.email.value, id) ==>
        var mid := old(nextId);
        var m := MemberDoc(body.name.value, body.email.value, body.role.GetOr("member"), AvatarUrl(body.email.value), id);
        var p := old(projects)[id];
        && mid !in old(members)
        && members == old(members)[mid := m]
        && projects == old(projects)[id := p.(members := p.members + [mid])]
        && res == Response(201, MemberJson(Entry(mid, m)))
    {
      if Falsy(body.email) || Falsy(body.name) {
        return Response(400, Message("Email and name are required"));
      }
      var email, name := body.email.value, body.name.value;
      var role := body.role.GetOr("member");
      if id !in projects {
        return ProjectNotFound;
      }
      if AlreadyInvited(members, email, id) {
        return Response(400, Message("Member already invited to this project"));
      }
      var avatarUrl := AvatarUrl(email);
      var mid := nextId;
      nextId := nextId + 1;
      var newMember := MemberDoc(name, email, role, avatarUrl, id);
      members := members[mid := newMember];
      var p := projects[id];
      projects := projects[id := p.(members := p.members + [mid])];
      res := Response(201, MemberJson(Entry(mid, newMember)));
    }

    /** DELETE /:projectId/members/:memberId: drop the reference from the project, then delete the
        member document whichever project it belongs to. */
    method RemoveMember(projectId: ObjectId, memberId: ObjectId) returns (res: Response)
      requires Valid()
      modifies this
      ensures Valid()
      ensures tasks == old(tasks) && comments == old(comments) && nextId == old(nextId)
      ensures projectId !in old(projects) ==>
        res == ProjectNotFound && projects == old(projects) && members == old(members)
      ensures projectId in old(projects) ==>
        var p := old(projects)[projectId];
        && projects == old(projects)[projectId := p.(members := RemoveAll(p.members, memberId))]
        && members == old(members) - {memberId}
        && res == Response(200, Message("Member removed from project"))
    {
      if projectId !in projects {
        return ProjectNotFound;
      }
      var p := projects[projectId];
      projects := projects[projectId := p.(members := RemoveAll(p.members, memberId))];
      members := members - {memberId};
      res := Response(200, Message("Member removed from project"));
    }
  }

  /** Removing a member keeps every other reference, in order, and no occurrence of the removed one. */
  lemma {:induction false} RemoveAllKeepsOthers(ids: seq<ObjectId>, memberId: ObjectId, more: seq<ObjectId>)
    ensures memberId !in RemoveAll(ids, memberId)
    ensures RemoveAll(ids + more, memberId) == RemoveAll(ids, memberId) + RemoveAll(more, memberId)
    ensures memberId !in ids ==> RemoveAll(ids, memberId) == ids
  {
    RemoveAllConcat(ids, more, memberId);
    if memberId !in ids {
      RemoveAllAbsent(ids, memberId);
    }
  }

  /** A successful invite makes the email a member of the project, so a repeated invite is refused. */
  lemma InviteThenDuplicate(members: map<ObjectId, MemberDoc>, mid: ObjectId, m: MemberDoc)
    ensures AlreadyInvited(members[mid := m], m.email, m.projectId)
  {
    assert members[mid := m][mid] == m;
  }
}
