/** The owner's dashboard (src/Pages/Projects/Dashboard.jsx): the list of
    the user's own projects and the project shown in the expanded view. A
    confirmed delete that the server accepts removes the project and closes
    the expanded view if it showed that project. */
module Dashboard {
  import opened Common
  import opened Seqs
  import opened Projects

  datatype DashboardState = DashboardState(userProjects: seq<Project>, expanded: Option<Project>)

  /** `if (expandedProject?._id === projectId) setExpandedProject(null)` */
  function ExpandedAfterDelete(expanded: Option<Project>, projectId: Id): (r: Option<Project>)
    ensures r == None <==> expanded == None || expanded.value.id == projectId
    ensures r != None ==> r == expanded
  {
    if expanded.Some? && expanded.value.id == projectId then None else expanded
  }

  const DeletedAlert := Alert("Deleted!", "Your project has been deleted.", SuccessIcon)

  /** `error.message || "Failed to delete project."` */
  function DeleteErrorAlert(e: ApiError): (a: Alert)
    ensures a.text != "" && a.icon == ErrorIcon
  {
    Alert("Error!", OrElse(Some(e.message), "Failed to delete project."), ErrorIcon)
  }

  /** `handleDelete`: nothing changes unless the dialog is confirmed and the
      server accepts the delete. */
  function HandleDelete(s: DashboardState, projectId: Id, confirmed: bool, reply: Reply<()>)
    : (r: (DashboardState, Option<Alert>))
    ensures !(confirmed && reply.Resolved?) ==> r.0 == s
    ensures confirmed && reply.Resolved? ==>
              r.0 == DashboardState(RemoveById(s.userProjects, projectId), ExpandedAfterDelete(s.expanded, projectId))
    ensures r.1.None? <==> !confirmed
    ensures confirmed && reply.Resolved? ==> r.1 == Some(DeletedAlert)
    ensures confirmed && reply.Failed? ==> r.1 == Some(DeleteErrorAlert(reply.error))
  {
    if !confirmed then (s, None)
    else match reply
      case Failed(e) => (s, Some(DeleteErrorAlert(e)))
      case Resolved(_) =>
        (DashboardState(RemoveById(s.userProjects, projectId), ExpandedAfterDelete(s.expanded, projectId)),
         Some(DeletedAlert))
  }

  /** Clicking a card shows it in the expanded view. */
  function OpenCard(s: DashboardState, p: Project): (r: DashboardState)
    ensures r.expanded == Some(p) && r.userProjects == s.userProjects
  {
    s.(expanded := Some(p))
  }

  /** The close button empties the expanded view. */
  function CloseCard(s: DashboardState): (r: DashboardState)
    ensures r.expanded == None && r.userProjects == s.userProjects
  {
    s.(expanded := None)
  }

  /** After a successful delete, the deleted id is gone from the list and from
      the expanded view, and every other project keeps its place and count. */
  lemma DeleteLeavesNoTrace(s: DashboardState, projectId: Id, q: Project)
    ensures var after := HandleDelete(s, projectId, true, Resolved(())).0;
            && IsSubsequence(after.userProjects, s.userProjects)
            && (forall i :: 0 <= i < |after.userProjects| ==> after.userProjects[i].id != projectId)
            && (after.expanded.Some? ==> after.expanded.value.id != projectId)
            && multiset(after.userProjects)[q] == if q.id != projectId then multiset(s.userProjects)[q] else 0
  {
    RemoveByIdCount(s.userProjects, projectId, q);
  }

  /** Deleting the project that is open closes the view. */
  lemma DeleteOpenProjectCloses(s: DashboardState, p: Project)
    ensures HandleDelete(OpenCard(s, p), p.id, true, Resolved(())).0
            == DashboardState(RemoveById(s.userProjects, p.id), None)
  {
  }
}
