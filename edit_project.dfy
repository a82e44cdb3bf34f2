/** The project editor (src/Pages/Projects/EditProject.jsx): loading the
    project to edit from the owner's list, the role-tag editor, the form's
    validation schema and the messages after saving. */
module EditProject {
  import opened Common
  import opened Text
  import opened Projects

  /** The Formik values of the editor. */
  datatype ProjectForm = ProjectForm(
    title: string,
    category: Option<string>,
    description: string,
    roles: Option<seq<string>>,
    roleInput: string)

  predicate NoDuplicates(roles: seq<string>) {
    forall i, j :: 0 <= i < j < |roles| ==> roles[i] != roles[j]
  }

  /** The rule the Enter key and the Add button both run: trim the input; a
      non-empty value not yet in the list is appended and the input cleared;
      otherwise list and input stay as they are. */
  function AddRole(roles: seq<string>, input: string): (r: (seq<string>, string))
    ensures |roles| <= |r.0| <= |roles| + 1 && r.0[..|roles|] == roles
    ensures |r.0| == |roles| + 1 <==> Trim(input) != "" && Trim(input) !in roles
    ensures |r.0| == |roles| + 1 ==> r.0[|roles|] == Trim(input) && r.1 == ""
    ensures |r.0| == |roles| ==> r == (roles, input)
    ensures Trim(input) != "" ==> Trim(input) in r.0
    ensures NoDuplicates(roles) ==> NoDuplicates(r.0)
  {
    var trimmed := Trim(input);
    if trimmed != "" && trimmed !in roles then
      assert (roles + [trimmed])[..|roles|] == roles;
      assert (roles + [trimmed])[|roles|] == trimmed;
      (roles + [trimmed], "")
    else
      assert roles[..|roles|] == roles;
      (roles, input)
  }

  /** The Enter/Add handler on the whole form. Without a roles array, a
      blank input does nothing and a non-blank one makes the handler throw
      before it changes anything; either way the form stays as it is. */
  function AddRoleToForm(f: ProjectForm): (r: ProjectForm)
    ensures f.roles.None? ==> r == f
    ensures f.roles.Some? ==>
              r == f.(roles := Some(AddRole(f.roles.value, f.roleInput).0), roleInput := AddRole(f.roles.value, f.roleInput).1)
  {
    match f.roles
    case None => f
    case Some(roles) =>
      var (roles', input') := AddRole(roles, f.roleInput);
      f.(roles := Some(roles'), roleInput := input')
  }

  /** The remove button on tag `index`: `splice(index, 1)` on a copy. The
      index is always one of the rendered tags. */
  function RemoveRoleAt(roles: seq<string>, index: nat): (r: seq<string>)
    requires index < |roles|
    ensures |r| == |roles| - 1
    ensures forall k :: 0 <= k < index ==> r[k] == roles[k]
    ensures forall k :: index <= k < |r| ==> r[k] == roles[k + 1]
    ensures multiset(r) + multiset{roles[index]} == multiset(roles)
    ensures NoDuplicates(roles) ==> NoDuplicates(r) && roles[index] !in r
  {
    assert roles == roles[..index] + [roles[index]] + roles[index + 1..];
    roles[..index] + roles[index + 1..]
  }

  /** Removing the tag just added restores the list. */
  lemma RemoveUndoesAdd(roles: seq<string>, input: string)
    requires |AddRole(roles, input).0| == |roles| + 1
    ensures RemoveRoleAt(AddRole(roles, input).0, |roles|) == roles
  {
  }

  /** `data.projects.find(p => p._id === projectId)`: the first project with
      that id, or nothing when none has it. */
  function FindProject(ps: seq<Project>, projectId: Id): (r: Option<Project>)
    ensures r.None? <==> forall i :: 0 <= i < |ps| ==> ps[i].id != projectId
    ensures r.Some? ==>
              exists i :: 0 <= i < |ps| && ps[i] == r.value && ps[i].id == projectId && forall j :: 0 <= j < i ==> ps[j].id != projectId
    decreases |ps|
  {
    if ps == [] then None
    else if ps[0].id == projectId then Some(ps[0])
    else
      var r := FindProject(ps[1..], projectId);
      assert r.Some? ==> exists i :: 0 <= i < |ps[1..]| && ps[1..][i] == r.value && ps[1..][i].id == projectId
                          && forall j :: 0 <= j < i ==> ps[1..][j].id != projectId;
      assert r.Some? ==> exists i :: 1 <= i < |ps| && ps[i] == r.value && ps[i].id == projectId
                          && forall j :: 0 <= j < i ==> ps[j].id != projectId by {
        if r.Some? {
          var i :| 0 <= i < |ps[1..]| && ps[1..][i] == r.value && ps[1..][i].id == projectId
                   && forall j :: 0 <= j < i ==> ps[1..][j].id != projectId;
          assert forall j :: 0 <= j < i + 1 ==> ps[j].id != projectId by {
            forall j | 0 <= j < i + 1 ensures ps[j].id != projectId {
              if j > 0 { assert ps[j] == ps[1..][j - 1]; }
            }
          }
        }
      }
      r
  }

  datatype LoadResult = Loaded(form: ProjectForm) | LoadError(message: string)

  const FetchFailedMessage: string := "Failed to fetch project details."
  const NotFoundMessage: string := "Project not found."

  /** The form a found project opens with: its fields and an empty role input. */
  function FormOf(p: Project): ProjectForm {
    ProjectForm(p.title, p.category, p.description, p.roles, "")
  }

  /** The load effect: a failed fetch, or a payload without `projects` (whose
      `find` throws), reports the fetch failure; an id not in the list reports
      'Project not found.'; otherwise the form opens on that project. */
  function LoadForm(reply: Reply<Option<seq<Project>>>, projectId: Id): (r: LoadResult)
    ensures r.LoadError? ==> r.message in {FetchFailedMessage, NotFoundMessage}
    ensures r.LoadError? && r.message == NotFoundMessage <==>
              reply.Resolved? && reply.value.Some? && forall i :: 0 <= i < |reply.value.value| ==> reply.value.value[i].id != projectId
    ensures r.Loaded? ==>
              && reply.Resolved? && reply.value.Some? && r.form.roleInput == ""
              && exists i :: 0 <= i < |reply.value.value| && reply.value.value[i].id == projectId && r.form == FormOf(reply.value.value[i])
    ensures reply.Resolved? && reply.value.Some? && (exists i :: 0 <= i < |reply.value.value| && reply.value.value[i].id == projectId) ==>
              r == Loaded(FormOf(FindProject(reply.value.value, projectId).value))
  {
    match reply
    case Failed(_) => LoadError(FetchFailedMessage)
    case Resolved(None) => LoadError(FetchFailedMessage)
    case Resolved(Some(ps)) =>
      match FindProject(ps, projectId)
      case None => LoadError(NotFoundMessage)
      case Some(p) => Loaded(FormOf(p))
  }

  /** The schema's rule on `roles`: an array with at least one entry and no
      empty entry. */
  predicate RolesRuleHolds(roles: Option<seq<string>>) {
    roles.Some? && |roles.value| >= 1 && forall i :: 0 <= i < |roles.value| ==> roles.value[i] != ""
  }

  /** The validation schema: title, category and description required, and
      the roles rule. */
  predicate FormValid(f: ProjectForm) {
    && f.title != ""
    && f.category.Some? && f.category.value != ""
    && f.description != ""
    && RolesRuleHolds(f.roles)
  }

  /** Adding a tag never breaks the roles rule, and a first non-blank tag
      satisfies it. */
  lemma AddRoleKeepsRolesRule(roles: seq<string>, input: string)
    requires RolesRuleHolds(Some(roles)) || (roles == [] && Trim(input) != "")
    ensures RolesRuleHolds(Some(AddRole(roles, input).0))
  {
    var r := AddRole(roles, input).0;
    if |r| == |roles| + 1 {
      assert forall i :: 0 <= i < |roles| ==> r[i] == roles[i];
    }
  }

  /** Removing a tag keeps the rule while another tag remains, and removing
      the only tag breaks it, so the form cannot be saved without a role. */
  lemma RemoveRoleAndRolesRule(roles: seq<string>, index: nat)
    requires index < |roles| && RolesRuleHolds(Some(roles))
    ensures RolesRuleHolds(Some(RemoveRoleAt(roles, index))) <==> |roles| >= 2
  {
  }

  /** The editor's two messages. */
  datatype EditView = EditView(errorMsg: string, successMsg: string)

  /** `handleSubmit`, which the form library calls only on a form the schema
      accepts: both messages are cleared, the values are sent, and the reply
      sets the success or the error message. */
  function Save(v: EditView, f: ProjectForm, reply: Reply<Option<string>>): (r: (bool, EditView))
    ensures r.0 <==> FormValid(f)
    ensures !r.0 ==> r.1 == v
    ensures r.0 ==> r.1 == EditView(SaveMessage(reply).1, SaveMessage(reply).0)
  {
    if !FormValid(f) then (false, v)
    else
      var (success, error) := SaveMessage(reply);
      (true, EditView(error, success))
  }

  /** A form that can be saved can still be saved after Enter or Add. */
  lemma AddRoleKeepsFormSavable(v: EditView, f: ProjectForm, reply: Reply<Option<string>>)
    requires Save(v, f, reply).0
    ensures Save(v, AddRoleToForm(f), reply).0
  {
    AddRoleKeepsRolesRule(f.roles.value, f.roleInput);
  }

  /** Removing the only role makes the form unsavable: nothing is sent. */
  lemma NoSaveWithoutRoles(v: EditView, f: ProjectForm, reply: Reply<Option<string>>)
    requires f.roles.Some? && |f.roles.value| == 1
    ensures !Save(v, f.(roles := Some(RemoveRoleAt(f.roles.value, 0))), reply).0
    ensures Save(v, f.(roles := Some(RemoveRoleAt(f.roles.value, 0))), reply).1 == v
  {
  }

  /** The save handler's message: `response.success || 'Project updated
      successfully!'`, or `error.response?.data?.error || 'Failed to update
      project'`. */
  function SaveMessage(reply: Reply<Option<string>>): (r: (string, string))
    ensures reply.Resolved? ==> r.1 == "" && r.0 == OrElse(reply.value, "Project updated successfully!")
    ensures reply.Failed? ==> r.0 == "" && r.1 == OrElse(reply.error.serverError, "Failed to update project")
    ensures r.0 != "" <==> reply.Resolved?
  {
    match reply
    case Resolved(success) => (OrElse(success, "Project updated successfully!"), "")
    case Failed(e) => ("", OrElse(e.serverError, "Failed to update project"))
  }
}
