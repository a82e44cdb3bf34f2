/** The owner's pending-requests page (src/Pages/Projects/PendingRequests.jsx).
    After the server accepts an approve or a reject, the page patches its own
    list: in the decided project it drops every pending entry of the target
    user, and then it drops every project left without pending entries.
    Approve and reject apply the same patch; no member is added locally.
    HandleActionAsWritten is the handler as written; HandleAction is the same
    handler with its success alert in the correct past tense. */
module PendingRequests {
  import opened Common
  import opened Seqs
  import opened Text
  import opened Projects

  /** The target project's requests without those of the target user. */
  function WithoutUser(reqs: seq<PendingRequest>, targetUserId: string): (r: seq<PendingRequest>)
    ensures IsSubsequence(r, reqs)
    ensures forall i :: 0 <= i < |r| ==> UserKey(r[i].user) != targetUserId
    ensures forall i :: 0 <= i < |reqs| && UserKey(reqs[i].user) != targetUserId ==> reqs[i] in r
  {
    FilterIsSubsequence(reqs, (e: PendingRequest) => UserKey(e.user) != targetUserId);
    Filter(reqs, (e: PendingRequest) => UserKey(e.user) != targetUserId)
  }

  /** Other users' entries keep their multiplicity; the target's are all gone. */
  lemma WithoutUserCount(reqs: seq<PendingRequest>, targetUserId: string, e: PendingRequest)
    ensures multiset(WithoutUser(reqs, targetUserId))[e]
            == if UserKey(e.user) != targetUserId then multiset(reqs)[e] else 0
  {
    FilterCount(reqs, (e: PendingRequest) => UserKey(e.user) != targetUserId, e);
  }

  /** The `map` step: only the project with the decided id is rebuilt, with
      its other fields spread over unchanged. */
  function PatchProject(p: Project, projectId: Id, targetUserId: string): Project {
    if p.id != projectId then p
    else p.(pendingRequests := WithoutUser(p.pendingRequests, targetUserId))
  }

  predicate HasPending(p: Project) {
    |p.pendingRequests| > 0
  }

  /** The local patch after a decision: `map` then `filter` on a non-empty
      request list. */
  function DecidePatch(ps: seq<Project>, projectId: Id, targetUserId: string): (r: seq<Project>)
    ensures |r| <= |ps|
    ensures forall i :: 0 <= i < |r| ==> HasPending(r[i])
    ensures forall i :: 0 <= i < |r| && r[i].id != projectId ==> r[i] in ps
    ensures forall i :: 0 <= i < |r| && r[i].id == projectId ==>
              exists j :: 0 <= j < |ps| && ps[j].id == projectId
                && r[i] == ps[j].(pendingRequests := WithoutUser(ps[j].pendingRequests, targetUserId))
    ensures forall j :: 0 <= j < |ps| && ps[j].id != projectId && HasPending(ps[j]) ==> ps[j] in r
    ensures forall j :: 0 <= j < |ps| && ps[j].id == projectId
              && |WithoutUser(ps[j].pendingRequests, targetUserId)| > 0
              ==> ps[j].(pendingRequests := WithoutUser(ps[j].pendingRequests, targetUserId)) in r
  {
    var patched := MapSeq(ps, (p: Project) => PatchProject(p, projectId, targetUserId));
    assert forall j :: 0 <= j < |ps| ==> patched[j] == PatchProject(ps[j], projectId, targetUserId);
    Filter(patched, HasPending)
  }

  /** In the decided project no entry of the target user survives. */
  lemma DecidedUserGone(ps: seq<Project>, projectId: Id, targetUserId: string, i: int, k: int)
    requires 0 <= i < |DecidePatch(ps, projectId, targetUserId)|
    requires DecidePatch(ps, projectId, targetUserId)[i].id == projectId
    requires 0 <= k < |DecidePatch(ps, projectId, targetUserId)[i].pendingRequests|
    ensures UserKey(DecidePatch(ps, projectId, targetUserId)[i].pendingRequests[k].user) != targetUserId
  {
    var r := DecidePatch(ps, projectId, targetUserId);
    var j :| 0 <= j < |ps| && ps[j].id == projectId
      && r[i] == ps[j].(pendingRequests := WithoutUser(ps[j].pendingRequests, targetUserId));
  }

  function Ids(ps: seq<Project>): seq<Id> {
    MapSeq(ps, (p: Project) => p.id)
  }

  /** The surviving projects keep their relative order. */
  lemma DecideKeepsOrder(ps: seq<Project>, projectId: Id, targetUserId: string)
    ensures IsSubsequence(Ids(DecidePatch(ps, projectId, targetUserId)), Ids(ps))
  {
    var patched := MapSeq(ps, (p: Project) => PatchProject(p, projectId, targetUserId));
    FilterIsSubsequence(patched, HasPending);
    SubsequenceMapped(DecidePatch(ps, projectId, targetUserId), patched, (p: Project) => p.id);
    assert Ids(patched) == Ids(ps);
  }

  /** Applying the same decision again changes nothing. */
  lemma DecideIdempotent(ps: seq<Project>, projectId: Id, targetUserId: string)
    ensures DecidePatch(DecidePatch(ps, projectId, targetUserId), projectId, targetUserId)
            == DecidePatch(ps, projectId, targetUserId)
  {
    var r := DecidePatch(ps, projectId, targetUserId);
    forall i | 0 <= i < |r|
      ensures PatchProject(r[i], projectId, targetUserId) == r[i]
    {
      if r[i].id == projectId {
        var reqs := r[i].pendingRequests;
        assert forall k :: 0 <= k < |reqs| ==> UserKey(reqs[k].user) != targetUserId by {
          forall k | 0 <= k < |reqs| {
            DecidedUserGone(ps, projectId, targetUserId, i, k);
          }
        }
        FilterKeepsAll(reqs, (e: PendingRequest) => UserKey(e.user) != targetUserId);
      }
    }
    var patched := MapSeq(r, (p: Project) => PatchProject(p, projectId, targetUserId));
    MapSeqFixes(r, (p: Project) => PatchProject(p, projectId, targetUserId));
    FilterKeepsAll(patched, HasPending);
  }

  /** Nothing is added locally: every project shown afterwards has the same
      members as a project of the same id before. */
  lemma NoMemberAddedLocally(ps: seq<Project>, projectId: Id, targetUserId: string, i: int)
    requires 0 <= i < |DecidePatch(ps, projectId, targetUserId)|
    ensures exists j :: 0 <= j < |ps| && ps[j].id == DecidePatch(ps, projectId, targetUserId)[i].id
              && ps[j].members == DecidePatch(ps, projectId, targetUserId)[i].members
  {
    var r := DecidePatch(ps, projectId, targetUserId);
    if r[i].id != projectId {
      var j :| 0 <= j < |ps| && ps[j] == r[i];
    } else {
      var j :| 0 <= j < |ps| && ps[j].id == projectId
        && r[i] == ps[j].(pendingRequests := WithoutUser(ps[j].pendingRequests, targetUserId));
    }
  }

  /** `action === "approve" ? "Approve" : "Reject"` */
  function ActionName(action: string): string {
    if action == "approve" then "Approve" else "Reject"
  }

  /** The success alert as written: `${actionName}d!` and
      `Request has been ${actionName.toLowerCase()}d.` */
  function SuccessAlertAsWritten(action: string): Alert {
    Alert(ActionName(action) + "d!", "Request has been " + Lower(ActionName(action)) + "d.", SuccessIcon)
  }

  /** The misspelling: a reject is announced as "Rejectd!". */
  lemma RejectAlertMisspelled()
    ensures SuccessAlertAsWritten("reject").title == "Rejectd!"
    ensures SuccessAlertAsWritten("reject").text == "Request has been rejectd."
  {
    assert Lower("Reject") == "reject";
  }

  function PastTense(action: string): string {
    if action == "approve" then "Approved" else "Rejected"
  }

  /** The success alert as intended: the past tense of the decision. */
  function SuccessAlert(action: string): Alert {
    Alert(PastTense(action) + "!", "Request has been " + Lower(PastTense(action)) + ".", SuccessIcon)
  }

  /** Both decisions are announced in correct English, and the approve alert
      is the one the page already shows. */
  lemma SuccessAlertSpelledOut(action: string)
    ensures action == "approve" ==> SuccessAlert(action) == Alert("Approved!", "Request has been approved.", SuccessIcon)
    ensures action == "approve" ==> SuccessAlert(action) == SuccessAlertAsWritten(action)
    ensures action != "approve" ==> SuccessAlert(action) == Alert("Rejected!", "Request has been rejected.", SuccessIcon)
  {
    assert Lower("Approve") == "approve";
    assert Lower("Approved") == "approved";
    assert Lower("Rejected") == "rejected";
  }

  /** `error.message || "Failed to <action> request. Try again."` */
  function ErrorAlert(action: string, error: ApiError): (a: Alert)
    ensures a.text != "" && a.icon == ErrorIcon
  {
    Alert("Error", OrElse(Some(error.message), "Failed to " + Lower(ActionName(action)) + " request. Try again."), ErrorIcon)
  }

  /** `handleAction` as written: ask for confirmation, call the server, then
      announce the decision with the as-written alert and patch the list; a
      declined dialog or a failed call leaves the list as it was. */
  function HandleActionAsWritten(prev: seq<Project>, projectId: Id, targetUserId: string, action: string,
                                 confirmed: bool, reply: Reply<()>): (r: (seq<Project>, Option<Alert>))
    ensures !confirmed ==> r == (prev, None)
    ensures confirmed && reply.Failed? ==> r == (prev, Some(ErrorAlert(action, reply.error)))
    ensures confirmed && reply.Resolved? ==>
              r == (DecidePatch(prev, projectId, targetUserId), Some(SuccessAlertAsWritten(action)))
  {
    if !confirmed then (prev, None)
    else match reply
      case Failed(e) => (prev, Some(ErrorAlert(action, e)))
      case Resolved(_) => (DecidePatch(prev, projectId, targetUserId), Some(SuccessAlertAsWritten(action)))
  }

  /** `handleAction` with the success alert corrected to the past tense; in
      every other respect it is the handler as written. */
  function HandleAction(prev: seq<Project>, projectId: Id, targetUserId: string, action: string,
                        confirmed: bool, reply: Reply<()>): (r: (seq<Project>, Option<Alert>))
    ensures !confirmed ==> r == (prev, None)
    ensures confirmed && reply.Failed? ==> r == (prev, Some(ErrorAlert(action, reply.error)))
    ensures confirmed && reply.Resolved? ==>
              r == (DecidePatch(prev, projectId, targetUserId), Some(SuccessAlert(action)))
    ensures r.0 == HandleActionAsWritten(prev, projectId, targetUserId, action, confirmed, reply).0
  {
    if !confirmed then (prev, None)
    else match reply
      case Failed(e) => (prev, Some(ErrorAlert(action, e)))
      case Resolved(_) => (DecidePatch(prev, projectId, targetUserId), Some(SuccessAlert(action)))
  }

  /** On the page as written, an accepted reject is announced as "Rejectd!";
      the corrected handler announces "Rejected!" and otherwise agrees. */
  lemma RejectAnnouncedMisspelled(prev: seq<Project>, projectId: Id, targetUserId: string)
    ensures HandleActionAsWritten(prev, projectId, targetUserId, "reject", true, Resolved(())).1
            == Some(Alert("Rejectd!", "Request has been rejectd.", SuccessIcon))
    ensures HandleAction(prev, projectId, targetUserId, "reject", true, Resolved(())).1
            == Some(Alert("Rejected!", "Request has been rejected.", SuccessIcon))
  {
    RejectAlertMisspelled();
    SuccessAlertSpelledOut("reject");
  }

  /** Approve and reject patch the list identically. */
  lemma ApproveAndRejectPatchAlike(prev: seq<Project>, projectId: Id, targetUserId: string,
                                   confirmed: bool, reply: Reply<()>)
    ensures HandleAction(prev, projectId, targetUserId, "approve", confirmed, reply).0
            == HandleAction(prev, projectId, targetUserId, "reject", confirmed, reply).0
  {
  }
}
