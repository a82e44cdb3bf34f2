/** The all-projects page (src/Pages/Projects/Allprojects.jsx): how a fetch
    result becomes the shown list or the shown error. Its role choice and
    join guard are in RoleSelection. */
module AllProjects {
  import opened Common
  import opened Projects

  datatype AllProjectsView = AllProjectsView(projects: seq<Project>, error: string)

  const FetchFailedMessage: string := "Failed to fetch projects"

  /** The fetch effect: `data.projects || []` on success, else
      `err.response?.data?.error || 'Failed to fetch projects'`. */
  function AfterFetch(v: AllProjectsView, reply: Reply<Option<seq<Project>>>): (r: AllProjectsView)
    ensures reply.Resolved? ==> r == v.(projects := ProjectsOrEmpty(reply.value))
    ensures reply.Failed? ==> r.projects == v.projects && r.error != ""
    ensures reply.Failed? ==> r.error == OrElse(reply.error.serverError, FetchFailedMessage)
  {
    match reply
    case Resolved(projects) => v.(projects := ProjectsOrEmpty(projects))
    case Failed(e) => v.(error := OrElse(e.serverError, FetchFailedMessage))
  }

  /** A payload without `projects` shows an empty list and no error. */
  lemma MissingProjectsShowEmpty()
    ensures AfterFetch(AllProjectsView([], ""), Resolved(None)) == AllProjectsView([], "")
  {
  }

  /** A failure the server explains shows its explanation; one it does not
      shows the fixed message. */
  lemma FetchErrorMessage(v: AllProjectsView, e: ApiError)
    ensures e.serverError.Some? && e.serverError.value != "" ==> AfterFetch(v, Failed(e)).error == e.serverError.value
    ensures e.serverError.None? ==> AfterFetch(v, Failed(e)).error == FetchFailedMessage
  {
  }
}
