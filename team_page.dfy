/** The team page of the collaborative copy: the member list, per-member task counts, role
    lookup, and the three summary cards. */
module TeamPage {
  import opened Wrappers
  import opened Seqs
  import opened Domain
  import opened ProjectContext

  // ----- the member list -----

  /** `self.findIndex(m => m.id === id)`: the first position holding the id, -1 when none does. */
  function FindIndexById(ms: seq<ProjectMember>, id: string): (r: int)
    ensures -1 <= r < |ms|
    ensures r == -1 <==> forall j :: 0 <= j < |ms| ==> ms[j].id != id
    ensures r >= 0 ==> ms[r].id == id && forall j :: 0 <= j < r ==> ms[j].id != id
  {
    if ms == [] then -1
    else if ms[0].id == id then 0
    else
      var k := FindIndexById(ms[1..], id);
      if k == -1 then -1 else k + 1
  }

  /** Whether some member of the list carries the id. */
  predicate HasId(ms: seq<ProjectMember>, id: string)
  {
    exists j :: 0 <= j < |ms| && ms[j].id == id
  }

  lemma HasIdSnoc(ms: seq<ProjectMember>, m: ProjectMember, id: string)
    ensures HasId(ms + [m], id) <==> HasId(ms, id) || m.id == id
  {
    if HasId(ms + [m], id) {
      var j :| 0 <= j < |ms + [m]| && (ms + [m])[j].id == id;
      if j < |ms| {
        assert ms[j].id == id;
      }
    }
    if HasId(ms, id) {
      var j :| 0 <= j < |ms| && ms[j].id == id;
      assert (ms + [m])[j].id == id;
    }
    assert (ms + [m])[|ms|] == m;
  }

  /** `index === self.findIndex(m => m.id === member.id)`: no earlier member carries the id. */
  predicate FirstAt(all: seq<ProjectMember>, k: nat)
    requires k < |all|
  {
    FindIndexById(all, all[k].id) == k
  }

  lemma FirstAtSpec(all: seq<ProjectMember>, k: nat)
    requires k < |all|
    ensures FirstAt(all, k) <==> !HasId(all[..k], all[k].id)
  {
    if HasId(all[..k], all[k].id) {
      var j :| 0 <= j < k && all[..k][j].id == all[k].id;
      assert all[j].id == all[k].id;
    }
  }

  /** `self.filter((member, index, self) => index === self.findIndex(m => m.id === member.id))`
      over the first `n` members. */
  function KeepFirstUpTo(all: seq<ProjectMember>, n: nat): seq<ProjectMember>
    requires n <= |all|
  {
    if n == 0 then []
    else KeepFirstUpTo(all, n - 1) + (if FirstAt(all, n - 1) then [all[n - 1]] else [])
  }

  function KeepFirstById(all: seq<ProjectMember>): seq<ProjectMember>
  {
    KeepFirstUpTo(all, |all|)
  }

  lemma {:induction false} KeepFirstUpToSpec(all: seq<ProjectMember>, n: nat)
    requires n <= |all|
    ensures var r := KeepFirstUpTo(all, n);
      && (forall id :: HasId(r, id) <==> HasId(all[..n], id))
      && (forall p, q :: 0 <= p < q < |r| ==> r[p].id != r[q].id)
      && (forall p :: 0 <= p < |r| ==> 0 <= FindIndexById(all, r[p].id) < n && all[FindIndexById(all, r[p].id)] == r[p])
  {
    if n > 0 {
      var k := n - 1;
      KeepFirstUpToSpec(all, k);
      var prev := KeepFirstUpTo(all, k);
      var r := KeepFirstUpTo(all, n);
      assert all[..n] == all[..k] + [all[k]];
      FirstAtSpec(all, k);
      forall id ensures HasId(all[..n], id) <==> HasId(all[..k], id) || all[k].id == id {
        HasIdSnoc(all[..k], all[k], id);
      }
      if FirstAt(all, k) {
        assert r == prev + [all[k]];
        forall id ensures HasId(r, id) <==> HasId(prev, id) || all[k].id == id {
          HasIdSnoc(prev, all[k], id);
        }
        forall p | 0 <= p < |prev| ensures prev[p].id != all[k].id {
          assert HasId(prev, prev[p].id);
        }
      } else {
        assert r == prev;
      }
    }
  }

  /** The de-duplicated list has no repeated id, names every id of the input, and keeps for each
      id the first member that carried it. */
  lemma KeepFirstByIdSpec(all: seq<ProjectMember>)
    ensures var r := KeepFirstById(all);
      && (forall p, q :: 0 <= p < q < |r| ==> r[p].id != r[q].id)
      && (forall p :: 0 <= p < |r| ==> 0 <= FindIndexById(all, r[p].id) && r[p] == all[FindIndexById(all, r[p].id)])
      && (forall id :: HasId(r, id) <==> HasId(all, id))
  {
    KeepFirstUpToSpec(all, |all|);
    assert all[..|all|] == all;
    var r := KeepFirstById(all);
    assert r == KeepFirstUpTo(all, |all|);
  }

  /** `projects.flatMap(project => project.members)`. */
  function AllMembers(ps: seq<Project>): seq<ProjectMember>
  {
    Flatten(Map(ps, (p: Project) => p.members))
  }

  /** The current project's members, or every project's members with repeated ids dropped. */
  function TeamMembers(currentProject: Option<Project>, ps: seq<Project>): (r: seq<ProjectMember>)
    ensures currentProject.Some? ==> r == currentProject.value.members
  {
    if currentProject.Some? then currentProject.value.members else KeepFirstById(AllMembers(ps))
  }

  /** With no current project, every member of some project shows up, once per id. */
  lemma TeamMembersOfAll(ps: seq<Project>, i: nat, k: nat)
    requires i < |ps| && k < |ps[i].members|
    ensures HasId(TeamMembers(None, ps), ps[i].members[k].id)
    ensures var r := TeamMembers(None, ps); forall p, q :: 0 <= p < q < |r| ==> r[p].id != r[q].id
  {
    var all := AllMembers(ps);
    var m := ps[i].members[k];
    FlattenMember(Map(ps, (p: Project) => p.members), m);
    assert m in Map(ps, (p: Project) => p.members)[i];
    var j :| 0 <= j < |all| && all[j] == m;
    KeepFirstByIdSpec(all);
    assert HasId(all, m.id);
    assert TeamMembers(None, ps) == KeepFirstById(all);
  }

  // ----- task counts -----

  predicate AssignedTo(t: Task, memberId: string)
  {
    t.assigneeId == Some(memberId)
  }

  /** getTaskCount. */
  function TaskCount(ps: seq<Project>, memberId: string): nat
  {
    |Filter(AllTasks(ps), (t: Task) => AssignedTo(t, memberId))|
  }

  /** A member's tasks counted project by project and summed. */
  function CountPerProject(ps: seq<Project>, memberId: string): nat
  {
    if ps == [] then 0 else |Filter(ps[0].tasks, (t: Task) => AssignedTo(t, memberId))| + CountPerProject(ps[1..], memberId)
  }

  /** Counting over the flattened task list, as getTaskCount does, equals counting in each project
      and adding the counts up. */
  lemma {:induction false} TaskCountPerProject(ps: seq<Project>, memberId: string)
    ensures TaskCount(ps, memberId) == CountPerProject(ps, memberId)
  {
    var p := (t: Task) => AssignedTo(t, memberId);
    if ps != [] {
      var f := (q: Project) => q.tasks;
      assert Map(ps, f)[1..] == Map(ps[1..], f);
      assert AllTasks(ps) == ps[0].tasks + AllTasks(ps[1..]);
      FilterConcat(ps[0].tasks, AllTasks(ps[1..]), p);
      TaskCountPerProject(ps[1..], memberId);
    }
  }

  /** The counts of a list of tasks for each of a list of member ids. */
  function CountsFor(ts: seq<Task>, ids: seq<string>): nat
  {
    if ids == [] then 0 else |Filter(ts, (t: Task) => AssignedTo(t, ids[0]))| + CountsFor(ts, ids[1..])
  }

  /** How many of the ids a task is assigned to. */
  function Hits(t: Task, ids: seq<string>): nat
  {
    if ids == [] then 0 else (if AssignedTo(t, ids[0]) then 1 else 0) + Hits(t, ids[1..])
  }

  lemma {:induction false} HitsAtMostOne(t: Task, ids: seq<string>)
    requires NoDuplicates(ids)
    ensures Hits(t, ids) <= 1
    ensures Hits(t, ids) == 0 <==> (t.assigneeId.None? || t.assigneeId.value !in ids)
  {
    if ids != [] {
      assert NoDuplicates(ids[1..]) by {
        forall i, j | 0 <= i < j < |ids[1..]| ensures ids[1..][i] != ids[1..][j] {
          assert ids[1..][i] == ids[i + 1] && ids[1..][j] == ids[j + 1];
        }
      }
      HitsAtMostOne(t, ids[1..]);
      if AssignedTo(t, ids[0]) {
        forall k | 0 <= k < |ids[1..]| ensures ids[1..][k] != ids[0] {
          assert ids[1..][k] == ids[k + 1];
        }
      }
    }
  }

  lemma {:induction false} CountsForCons(t: Task, ts: seq<Task>, ids: seq<string>)
    ensures CountsFor([t] + ts, ids) == Hits(t, ids) + CountsFor(ts, ids)
  {
    if ids != [] {
      CountsForCons(t, ts, ids[1..]);
      assert ([t] + ts)[1..] == ts;
    }
  }

  /** A task has one assignee at most, so the counts of distinct members add up to at most the
      number of tasks. */
  lemma {:induction false} CountsForBound(ts: seq<Task>, ids: seq<string>)
    requires NoDuplicates(ids)
    ensures CountsFor(ts, ids) <= |ts|
  {
    if ts == [] {
      CountsForEmpty(ids);
    } else {
      assert ts == [ts[0]] + ts[1..];
      CountsForCons(ts[0], ts[1..], ids);
      HitsAtMostOne(ts[0], ids);
      CountsForBound(ts[1..], ids);
    }
  }

  lemma {:induction false} CountsForEmpty(ids: seq<string>)
    ensures CountsFor([], ids) == 0
  {
    if ids != [] {
      CountsForEmpty(ids[1..]);
    }
  }

  /** The task counts of the members of the team, summed. */
  function TeamTaskCount(ps: seq<Project>, ids: seq<string>): nat
  {
    if ids == [] then 0 else TaskCount(ps, ids[0]) + TeamTaskCount(ps, ids[1..])
  }

  /** Summed over distinct member ids, getTaskCount never exceeds the total number of tasks. */
  lemma TaskCountsBounded(ps: seq<Project>, ids: seq<string>)
    requires NoDuplicates(ids)
    ensures TeamTaskCount(ps, ids) <= TaskTotal(ps)
  {
    TeamTaskCountIs(ps, ids);
    CountsForBound(AllTasks(ps), ids);
    AllTasksCount(ps);
  }

  lemma {:induction false} TeamTaskCountIs(ps: seq<Project>, ids: seq<string>)
    ensures TeamTaskCount(ps, ids) == CountsFor(AllTasks(ps), ids)
  {
    if ids != [] {
      TeamTaskCountIs(ps, ids[1..]);
    }
  }

  // ----- role lookup -----

  /** `projects.find(p => p.id === id)`. */
  function FindProjectById(ps: seq<Project>, id: string): (r: Option<Project>)
    ensures r.None? <==> forall i :: 0 <= i < |ps| ==> ps[i].id != id
    ensures r.Some? ==> exists i :: 0 <= i < |ps| && ps[i] == r.value && r.value.id == id
                                    && forall j :: 0 <= j < i ==> ps[j].id != id
  {
    if ps == [] then None
    else if ps[0].id == id then Some(ps[0])
    else
      var r := FindProjectById(ps[1..], id);
      assert r.Some? ==> exists i :: 0 <= i < |ps[1..]| && ps[1..][i] == r.value && r.value.id == id
                                    && forall j :: 0 <= j < i ==> ps[1..][j].id != id;
      assert forall i :: 0 <= i < |ps[1..]| ==> ps[1..][i] == ps[i + 1];
      r
  }

  /** `members.find(m => m.id === id)`. */
  function FindMemberById(ms: seq<ProjectMember>, id: string): (r: Option<ProjectMember>)
    ensures r.None? <==> forall i :: 0 <= i < |ms| ==> ms[i].id != id
    ensures r.Some? ==> r.value in ms && r.value.id == id
    ensures r.Some? ==> exists i :: 0 <= i < |ms| && ms[i] == r.value && forall j :: 0 <= j < i ==> ms[j].id != id
  {
    var k := FindIndexById(ms, id);
    if k == -1 then None else Some(ms[k])
  }

  /** getMemberRole: null when the project or the member is absent. */
  function MemberRoleIn(ps: seq<Project>, projectId: string, memberId: string): (r: Option<MemberRole>)
    ensures (forall i :: 0 <= i < |ps| ==> ps[i].id != projectId) ==> r.None?
    ensures r.Some? ==> exists p, m :: p in ps && p.id == projectId && m in p.members && m.id == memberId && m.role == r.value
    ensures forall p :: FindProjectById(ps, projectId) == Some(p) ==>
      (r.None? <==> forall k :: 0 <= k < |p.members| ==> p.members[k].id != memberId)
    ensures r.Some? ==>
      exists i, k :: 0 <= i < |ps| && ps[i].id == projectId && (forall j :: 0 <= j < i ==> ps[j].id != projectId)
        && 0 <= k < |ps[i].members| && ps[i].members[k].id == memberId
        && (forall l :: 0 <= l < k ==> ps[i].members[l].id != memberId)
        && r.value == ps[i].members[k].role
  {
    var project := FindProjectById(ps, projectId);
    if project.None? then None
    else
      var member := FindMemberById(project.value.members, memberId);
      if member.None? then None else Some(member.value.role)
  }

  // ----- summary cards -----

  /** `members.filter(m => m.role === "admin").length`. */
  function AdminCount(members: seq<ProjectMember>): (r: nat)
    ensures r <= |members|
    ensures r == 0 <==> forall i :: 0 <= i < |members| ==> members[i].role != Admin
  {
    var admins := Filter(members, (m: ProjectMember) => m.role == Admin);
    assert |admins| > 0 ==> exists i :: 0 <= i < |members| && members[i] == admins[0];
    |admins|
  }

  /** A truthy `assigneeId`. */
  predicate Assigned(t: Task)
  {
    t.assigneeId.Some? && t.assigneeId.value != ""
  }

  /** `projects.reduce((acc, project) => acc + project.tasks.filter(t => t.assigneeId).length, 0)`. */
  function AssignedTotal(ps: seq<Project>): nat
  {
    if ps == [] then 0 else Count(ps[0].tasks, Assigned) + AssignedTotal(ps[1..])
  }

  lemma {:induction false} AssignedAtMostTotal(ps: seq<Project>)
    ensures AssignedTotal(ps) <= TaskTotal(ps)
  {
    if ps != [] {
      AssignedAtMostTotal(ps[1..]);
    }
  }

  /** `Math.round(a / n)` for natural numbers: the nearest integer, halves rounded up. */
  function RoundDiv(a: nat, n: nat): (r: nat)
    requires n > 0
    ensures 2 * a < 2 * n * r + n && 2 * n * r <= 2 * a + n
  {
    (2 * a + n) / (2 * n)
  }

  /** The average-tasks card: 0 with no members, else the assigned tasks per member, rounded. */
  function AverageTasks(memberCount: nat, ps: seq<Project>): (r: nat)
    ensures memberCount == 0 ==> r == 0
    ensures memberCount > 0 ==>
      2 * AssignedTotal(ps) < 2 * memberCount * r + memberCount && 2 * memberCount * r <= 2 * AssignedTotal(ps) + memberCount
  {
    if memberCount > 0 then RoundDiv(AssignedTotal(ps), memberCount) else 0
  }
}
