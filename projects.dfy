/** The project records the pages receive from the server, and the list and
    expansion updates that several pages share. */
module Projects {
  import opened Common
  import opened Seqs

  type Id = string

  /** A request's or member's `user`: populated into an object with `_id`, or
      left as the bare id string. */
  datatype UserRef = Populated(id: string, userName: string) | Bare(id: string)

  datatype PendingRequest = PendingRequest(user: UserRef, role: string)

  datatype Member = Member(user: UserRef, role: string)

  /** A project as the list endpoints return it; `category` and `roles` may be
      missing, which the search treats explicitly. */
  datatype Project = Project(
    id: Id,
    title: string,
    description: string,
    category: Option<string>,
    roles: Option<seq<string>>,
    members: seq<Member>,
    pendingRequests: seq<PendingRequest>)

  /** What `String(obj)` gives for a plain object. */
  const ObjectString: string := "[object Object]"

  /** `(user?._id || user).toString()`: the populated `_id` when it is a
      non-empty string, the bare id string as it is, and the object's default
      string when a populated `_id` is empty. */
  function UserKey(u: UserRef): (k: string)
    ensures u.Bare? ==> k == u.id
    ensures u.Populated? && u.id != "" ==> k == u.id
    ensures u.Populated? && u.id == "" ==> k == ObjectString
  {
    match u
    case Populated(id, _) => if id != "" then id else ObjectString
    case Bare(id) => id
  }

  /** `prev.filter(p => p._id !== projectId)`: the list patch shared by the
      cancel and delete handlers. */
  function RemoveById(ps: seq<Project>, projectId: Id): (r: seq<Project>)
    ensures IsSubsequence(r, ps)
    ensures forall i :: 0 <= i < |r| ==> r[i].id != projectId
    ensures forall i :: 0 <= i < |ps| && ps[i].id != projectId ==> ps[i] in r
  {
    FilterIsSubsequence(ps, (p: Project) => p.id != projectId);
    Filter(ps, (p: Project) => p.id != projectId)
  }

  /** Nothing else changes: every project with another id keeps exactly its
      number of occurrences, and the target id is gone entirely. */
  lemma RemoveByIdCount(ps: seq<Project>, projectId: Id, q: Project)
    ensures multiset(RemoveById(ps, projectId))[q] == if q.id != projectId then multiset(ps)[q] else 0
  {
    FilterCount(ps, (p: Project) => p.id != projectId, q);
  }

  /** Removing twice is removing once. */
  lemma RemoveByIdIdempotent(ps: seq<Project>, projectId: Id)
    ensures RemoveById(RemoveById(ps, projectId), projectId) == RemoveById(ps, projectId)
  {
    FilterIdempotent(ps, (p: Project) => p.id != projectId);
  }

  /** A list without the id is left as it is. */
  lemma RemoveByIdAbsent(ps: seq<Project>, projectId: Id)
    requires forall i :: 0 <= i < |ps| ==> ps[i].id != projectId
    ensures RemoveById(ps, projectId) == ps
  {
    FilterKeepsAll(ps, (p: Project) => p.id != projectId);
  }

  /** `data.projects || []`: a fetch result without `projects` shows as an
      empty list. */
  function ProjectsOrEmpty(projects: Option<seq<Project>>): (r: seq<Project>)
    ensures projects.None? ==> r == []
    ensures projects.Some? ==> r == projects.value
  {
    if projects.Some? then projects.value else []
  }

  /** `setExpandedProjectId(prev => prev === projectId ? null : projectId)`:
      clicking the expanded card collapses it, clicking any other card
      expands that one instead. */
  function ToggleExpand(prev: Option<Id>, projectId: Id): (next: Option<Id>)
    ensures next == None <==> prev == Some(projectId)
    ensures next != None ==> next == Some(projectId)
  {
    if prev == Some(projectId) then None else Some(projectId)
  }

  /** Clicking the same card twice returns to the start when it started
      collapsed or expanded on that card; from any other card it ends collapsed. */
  lemma ToggleTwice(prev: Option<Id>, projectId: Id)
    ensures ToggleExpand(ToggleExpand(prev, projectId), projectId)
            == if prev == Some(projectId) then prev else None
  {
  }
}
