/** The per-project role choice and the join guard that the project browser
    (src/Pages/Projects/Main.jsx) and the all-projects page
    (src/Pages/Projects/Allprojects.jsx) both implement, with the same code:
    a map from project id to the chosen role, and a join that sends nothing
    until a non-empty role is chosen for that project. */
module RoleSelection {
  import opened Common
  import opened Projects

  /** `selectedRoles`: project id to the role picked in its drop-down. */
  type Selection = map<Id, string>

  /** `setSelectedRoles(prev => ({ ...prev, [projectId]: role }))` */
  function RoleChange(sel: Selection, projectId: Id, role: string): (r: Selection)
    ensures projectId in r && r[projectId] == role
    ensures r.Keys == sel.Keys + {projectId}
    ensures forall k :: k in sel && k != projectId ==> r[k] == sel[k]
  {
    sel[projectId := role]
  }

  /** The join request that is sent: that project id with its stored role. */
  datatype JoinRequest = JoinRequest(projectId: Id, role: string)

  /** `if (!selectedRole) return;`: no role, or the empty placeholder
      option, sends nothing. */
  function JoinGuard(sel: Selection, projectId: Id): (r: Option<JoinRequest>)
    ensures r.None? <==> projectId !in sel || sel[projectId] == ""
    ensures r.Some? ==> r.value == JoinRequest(projectId, sel[projectId])
  {
    if projectId in sel && sel[projectId] != "" then Some(JoinRequest(projectId, sel[projectId])) else None
  }

  /** Picking a role and then joining sends exactly that role; picking the
      empty placeholder sends nothing. */
  lemma SelectThenJoin(sel: Selection, projectId: Id, role: string)
    ensures JoinGuard(RoleChange(sel, projectId, role), projectId)
            == if role == "" then None else Some(JoinRequest(projectId, role))
  {
  }

  /** A choice made on one project does not affect joining another. */
  lemma SelectionIsPerProject(sel: Selection, projectId: Id, other: Id, role: string)
    requires other != projectId
    ensures JoinGuard(RoleChange(sel, other, role), projectId) == JoinGuard(sel, projectId)
  {
  }

  const SelectRoleAlert := Alert("Select Role", "Please select a role before joining.", WarningIcon)

  /** The alert after a sent join: `res.success || "Join request sent."`, or
      `err.response?.data?.error || "Failed to send join request."`. */
  function JoinAlert(reply: Reply<Option<string>>): (a: Alert)
    ensures a.text != ""
    ensures a.icon == (if reply.Resolved? then SuccessIcon else ErrorIcon)
  {
    match reply
    case Resolved(success) => Alert("Success", OrElse(success, "Join request sent."), SuccessIcon)
    case Failed(e) => Alert("Error", OrElse(e.serverError, "Failed to send join request."), ErrorIcon)
  }

  /** `handleJoin`: the request it sends, if any, and the alert it shows. The
      server's reply only matters when a request was sent. */
  function HandleJoin(sel: Selection, projectId: Id, reply: Reply<Option<string>>)
    : (r: (Option<JoinRequest>, Alert))
    ensures r.0 == JoinGuard(sel, projectId)
    ensures r.0.None? ==> r.1 == SelectRoleAlert
    ensures r.0.Some? ==> r.1 == JoinAlert(reply)
  {
    var request := JoinGuard(sel, projectId);
    if request.None? then (None, SelectRoleAlert) else (request, JoinAlert(reply))
  }
}
