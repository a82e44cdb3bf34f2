/** The page listing the projects the user asked to join
    (src/Pages/Projects/AppliedProjects.jsx). After a confirmed cancel it
    removes the project from its list. The call it awaits,
    `cancelJoinRequest` (src/Api/userApi.js), does not await its own post and
    so always resolves: as written the list is patched whatever the server
    answers. HandleCancelRequestAsWritten models that; HandleCancelRequest is
    the handler with the call awaited. */
module AppliedProjects {
  import opened Common
  import opened Projects

  const CancelledAlert := Alert("Cancelled", "Your join request has been cancelled.", SuccessIcon)
  const CancelErrorAlert := Alert("Error", "Failed to cancel request. Try again.", ErrorIcon)

  /** `cancelJoinRequest` as written: it returns `response.data` of a pending
      promise, so the caller's await resolves whatever the post does. */
  function CancelCallAsWritten(server: Reply<()>): (r: Reply<()>)
    ensures r.Resolved?
  {
    Resolved(())
  }

  /** `handleCancelRequest` as written, over the call as written: a confirmed
      cancel removes the project and announces it, whatever the server
      answers. */
  function HandleCancelRequestAsWritten(prev: seq<Project>, projectId: Id, confirmed: bool,
                                        server: Reply<()>): (r: (seq<Project>, Option<Alert>))
    ensures !confirmed ==> r == (prev, None)
    ensures confirmed ==> r == (RemoveById(prev, projectId), Some(CancelledAlert))
  {
    if !confirmed then (prev, None)
    else match CancelCallAsWritten(server)
      case Resolved(_) => (RemoveById(prev, projectId), Some(CancelledAlert))
      case Failed(_) => (prev, Some(CancelErrorAlert))
  }

  /** The discrepancy: a cancel the server refuses still removes the project
      from the list and is announced as done. */
  lemma CancelIgnoresServerFailure(prev: seq<Project>, projectId: Id, e: ApiError)
    requires exists i :: 0 <= i < |prev| && prev[i].id == projectId
    ensures HandleCancelRequestAsWritten(prev, projectId, true, Failed(e)).0 != prev
    ensures HandleCancelRequestAsWritten(prev, projectId, true, Failed(e)).1 == Some(CancelledAlert)
  {
    var i :| 0 <= i < |prev| && prev[i].id == projectId;
    var r := RemoveById(prev, projectId);
    assert prev[i] !in r;
  }

  /** `handleCancelRequest` with the server's answer awaited: only a confirmed
      and accepted cancel changes the list, and then it removes exactly the
      cancelled project. */
  function HandleCancelRequest(prev: seq<Project>, projectId: Id, confirmed: bool,
                               server: Reply<()>): (r: (seq<Project>, Option<Alert>))
    ensures !confirmed ==> r == (prev, None)
    ensures confirmed && server.Failed? ==> r == (prev, Some(CancelErrorAlert))
    ensures confirmed && server.Resolved? ==> r == (RemoveById(prev, projectId), Some(CancelledAlert))
  {
    if !confirmed then (prev, None)
    else match server
      case Resolved(_) => (RemoveById(prev, projectId), Some(CancelledAlert))
      case Failed(_) => (prev, Some(CancelErrorAlert))
  }

  /** The two handlers agree whenever the server accepts the cancel. */
  lemma HandlersAgreeOnSuccess(prev: seq<Project>, projectId: Id, confirmed: bool)
    ensures HandleCancelRequest(prev, projectId, confirmed, Resolved(()))
            == HandleCancelRequestAsWritten(prev, projectId, confirmed, Resolved(()))
  {
  }

  /** Cancelling the same project twice leaves the list as one cancel does,
      and the list never grows. */
  lemma CancelTwice(prev: seq<Project>, projectId: Id)
    ensures var once := HandleCancelRequest(prev, projectId, true, Resolved(())).0;
            HandleCancelRequest(once, projectId, true, Resolved(())).0 == once && |once| <= |prev|
  {
    RemoveByIdIdempotent(prev, projectId);
  }
}
