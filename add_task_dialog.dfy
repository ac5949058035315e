/** The add-task dialog of the app copy: its form defaults, the create handler's guards and
    reset, and the tag list editor. */
module AddTaskDialog {
  import opened Wrappers
  import opened Seqs
  import opened Text
  import opened Domain

  /** What the dialog hands to createTask: a task without id and timestamps. */
  datatype TaskDraft = TaskDraft(
    title: string,
    description: string,
    status: TaskStatus,
    priority: TaskPriority,
    dueDate: string,
    assigneeId: Option<string>,
    creatorId: string,
    attachments: seq<string>,
    comments: seq<Comment>,
    tags: seq<string>)

  /** The call `createTask(projectId, draft)` the handler makes. */
  datatype CreateTaskCall = CreateTaskCall(projectId: string, draft: TaskDraft)

  // ----- the creator id -----

  /** `currentProject?.members[0].id || ""` as written: with a current project that has no members,
      `members[0]` is undefined and reading its id throws, shown here as None. */
  function CreatorIdAsWritten(currentProject: Option<Project>): Option<string>
  {
    if currentProject.None? then Some("")
    else if |currentProject.value.members| == 0 then None
    else Some(currentProject.value.members[0].id)
  }

  /** A current project without members makes the handler throw before createTask is reached. */
  lemma CreatorIdAsWrittenThrows(p: Project)
    requires p.members == []
    ensures CreatorIdAsWritten(Some(p)).None?
  {
  }

  /** The intended `currentProject?.members[0]?.id || ""`: the first member's id, or "". */
  function CreatorId(currentProject: Option<Project>): (r: string)
    ensures currentProject.Some? && |currentProject.value.members| > 0 ==> r == currentProject.value.members[0].id
    ensures currentProject.None? || currentProject.value.members == [] ==> r == ""
  {
    if currentProject.Some? && |currentProject.value.members| > 0 then currentProject.value.members[0].id else ""
  }

  /** Wherever the written expression yields an id, the corrected one yields the same id; it also
      yields one where the written expression throws. */
  lemma CreatorIdAgrees(currentProject: Option<Project>)
    ensures CreatorIdAsWritten(currentProject).Some? ==> CreatorIdAsWritten(currentProject).value == CreatorId(currentProject)
    ensures CreatorIdAsWritten(currentProject).None? <==> currentProject.Some? && currentProject.value.members == []
  {
  }

  // ----- tags -----

  /** addTag on the list: the trimmed input is appended when it is non-blank and new. */
  function AddedTags(tags: seq<string>, input: string): seq<string>
  {
    var t := Trim(input);
    if t != "" && t !in tags then tags + [t] else tags
  }

  /** The list only grows at its end, by the trimmed input exactly when that is non-blank and new,
      and stays duplicate-free and free of blank tags. */
  lemma AddedTagsSpec(tags: seq<string>, input: string)
    ensures var r := AddedTags(tags, input);
      && (r == tags + [Trim(input)] <==> !IsBlank(input) && Trim(input) !in tags)
      && (r != tags ==> r == tags + [Trim(input)])
      && (NoDuplicates(tags) ==> NoDuplicates(r))
      && ((forall i :: 0 <= i < |tags| ==> tags[i] != "") ==> forall i :: 0 <= i < |r| ==> r[i] != "")
  {
    TrimSpec(input);
    var r := AddedTags(tags, input);
    if r != tags {
      assert r[|tags|] == Trim(input);
    }
  }

  /** Removing every occurrence keeps the list duplicate-free. */
  lemma {:induction false} RemoveAllNoDuplicates(tags: seq<string>, x: string)
    requires NoDuplicates(tags)
    ensures NoDuplicates(RemoveAll(tags, x))
  {
    if tags != [] {
      assert NoDuplicates(tags[1..]) by {
        forall i, j | 0 <= i < j < |tags[1..]| ensures tags[1..][i] != tags[1..][j] {
          assert tags[1..][i] == tags[i + 1] && tags[1..][j] == tags[j + 1];
        }
      }
      RemoveAllNoDuplicates(tags[1..], x);
      var rest := RemoveAll(tags[1..], x);
      forall k | 0 <= k < |rest| ensures rest[k] != tags[0] {
        var j :| 0 <= j < |tags[1..]| && tags[1..][j] == rest[k];
        assert tags[j + 1] == rest[k];
      }
    }
  }

  /** Removing a tag that addTag just appended gives back the list it started from. */
  lemma RemoveUndoesAdd(tags: seq<string>, input: string)
    requires Trim(input) !in tags
    ensures RemoveAll(AddedTags(tags, input), Trim(input)) == tags
  {
    var t := Trim(input);
    RemoveAllAbsent(tags, t);
    if t != "" {
      RemoveAllConcat(tags, [t], t);
    }
  }

  // ----- the form -----

  const DueInMs := 7 * 24 * 60 * 60 * 1000

  /** `title.trim()` is truthy. */
  predicate HasTitle(title: string)
  {
    Trim(title) != ""
  }

  class TaskForm {
    /** The `projectId` prop the dialog is rendered with. */
    const projectId: string
    var isOpen: bool
    var title: string
    var description: string
    var status: TaskStatus
    var priority: TaskPriority
    /** The picked due date, as its ISO string; None when the picker was cleared. */
    var dueDate: Option<string>
    var assigneeId: Option<string>
    var tag: string
    var tags: seq<string>

    /** The defaults, with `defaultDue` the ISO string of `Date.now() + DueInMs`. */
    predicate AtDefaults(defaultDue: string)
      reads this
    {
      && title == "" && description == "" && status == Todo && priority == Medium
      && dueDate == Some(defaultDue) && assigneeId == None && tag == "" && tags == []
    }

    constructor (projectId: string, defaultDue: string)
      ensures this.projectId == projectId
      ensures AtDefaults(defaultDue) && !isOpen
    {
      this.projectId := projectId;
      isOpen := false;
      title := "";
      description := "";
      status := Todo;
      priority := Medium;
      dueDate := Some(defaultDue);
      assigneeId := None;
      tag := "";
      tags := [];
    }

    /** handleCreateTask. A blank title, and after it a missing due date, stop with nothing sent and
        nothing changed; otherwise createTask is called with the `projectId` prop and a draft carrying the form's fields with no attachments and no
        comments, and the form resets to its defaults and closes. */
    method HandleCreateTask(currentProject: Option<Project>, nextDefaultDue: string) returns (call: Option<CreateTaskCall>)
      modifies this
      ensures !HasTitle(old(title)) ==> call == None && unchanged(this)
      ensures HasTitle(old(title)) && old(dueDate).None? ==> call == None && unchanged(this)
      ensures HasTitle(old(title)) && old(dueDate).Some? ==>
        && call == Some(CreateTaskCall(projectId,
             TaskDraft(old(title), old(description), old(status), old(priority), old(dueDate).value,
                       old(assigneeId), CreatorId(currentProject), [], [], old(tags))))
        && AtDefaults(nextDefaultDue) && !isOpen
    {
      if !HasTitle(title) {
        return None;
      }
      if dueDate.None? {
        return None;
      }
      call := Some(CreateTaskCall(projectId,
        TaskDraft(title, description, status, priority, dueDate.value, assigneeId, CreatorId(currentProject), [], [], tags)));
      title := "";
      description := "";
      status := Todo;
      priority := Medium;
      dueDate := Some(nextDefaultDue);
      assigneeId := None;
      tags := [];
      tag := "";
      isOpen := false;
    }

    /** addTag: the input is cleared only when its trimmed value was appended. */
    method AddTag()
      modifies this
      ensures tags == AddedTags(old(tags), old(tag))
      ensures tag == (if tags != old(tags) then "" else old(tag))
      ensures isOpen == old(isOpen) && title == old(title) && description == old(description)
      ensures status == old(status) && priority == old(priority) && dueDate == old(dueDate) && assigneeId == old(assigneeId)
    {
      var t := Trim(tag);
      if t != "" && t !in tags {
        tags := tags + [t];
        tag := "";
      }
    }

    /** removeTag. */
    method RemoveTag(tagToRemove: string)
      modifies this
      ensures tags == RemoveAll(old(tags), tagToRemove)
      ensures isOpen == old(isOpen) && title == old(title) && description == old(description) && tag == old(tag)
      ensures status == old(status) && priority == old(priority) && dueDate == old(dueDate) && assigneeId == old(assigneeId)
    {
      tags := RemoveAll(tags, tagToRemove);
    }
  }
}
