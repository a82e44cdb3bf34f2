/** The registration form (src/Pages/User/Register.jsx): its validation
    schema and the message shown after submitting. The email format test is
    the form library's and is a parameter here; the domain restriction that
    the source has commented out is not part of the rules. */
module Register {
  import opened Common

  /** The twelve departments of the drop-down, in order. */
  const Departments: seq<string> := [
    "Computer Science",
    "Computer Science & Design",
    "Artificial Intelligence & Machine Learning",
    "Data Science",
    "Machine Learning",
    "Data Analytics",
    "Electronics & Communication",
    "Electrical Engineering",
    "Mechanical Engineering",
    "Civil Engineering",
    "Information Technology",
    "Others"
  ]

  datatype RegisterForm = RegisterForm(userName: string, email: string, department: string, password: string)

  datatype Field = UserNameField | EmailField | DepartmentField | PasswordField

  /** Username: required, at least 3 and at most 20 characters. */
  predicate UserNameOk(u: string) {
    u != "" && 3 <= |u| && |u| <= 20
  }

  /** Email: required and of email format (any domain). */
  predicate EmailOk(e: string, isEmail: string -> bool) {
    e != "" && isEmail(e)
  }

  /** Department: required and one of the listed departments. */
  predicate DepartmentOk(d: string) {
    d != "" && d in Departments
  }

  /** Password: required and at least 6 characters. */
  predicate PasswordOk(p: string) {
    p != "" && |p| >= 6
  }

  /** The fields the schema rejects. */
  function FieldErrors(f: RegisterForm, isEmail: string -> bool): (bad: set<Field>)
    ensures UserNameField in bad <==> !(3 <= |f.userName| <= 20)
    ensures EmailField in bad <==> !(f.email != "" && isEmail(f.email))
    ensures DepartmentField in bad <==> f.department !in Departments
    ensures PasswordField in bad <==> |f.password| < 6
  {
    (if UserNameOk(f.userName) then {} else {UserNameField})
    + (if EmailOk(f.email, isEmail) then {} else {EmailField})
    + (if DepartmentOk(f.department) then {} else {DepartmentField})
    + (if PasswordOk(f.password) then {} else {PasswordField})
  }

  /** The success and error messages the page shows. */
  datatype RegisterView = RegisterView(errorMsg: string, successMsg: string)

  /** Submitting: the form library calls the handler only on a valid form;
      then a success clears the error and shows `response.message ||
      "Registration successful!"`, and a failure shows
      `error.response?.data?.error || "Registration error."`. */
  function Submit(v: RegisterView, f: RegisterForm, isEmail: string -> bool, reply: Reply<Option<string>>)
    : (r: (bool, RegisterView))
    ensures r.0 <==> FieldErrors(f, isEmail) == {}
    ensures !r.0 ==> r.1 == v
    ensures r.0 && reply.Resolved? ==> r.1 == RegisterView("", OrElse(reply.value, "Registration successful!"))
    ensures r.0 && reply.Failed? ==> r.1 == v.(errorMsg := OrElse(reply.error.serverError, "Registration error."))
  {
    if FieldErrors(f, isEmail) != {} then (false, v)
    else match reply
      case Resolved(message) => (true, RegisterView("", OrElse(message, "Registration successful!")))
      case Failed(e) => (true, v.(errorMsg := OrElse(e.serverError, "Registration error.")))
  }

  /** A request is sent exactly when all four rules hold. */
  lemma SentIffAllRulesHold(v: RegisterView, f: RegisterForm, isEmail: string -> bool, reply: Reply<Option<string>>)
    ensures Submit(v, f, isEmail, reply).0
            <==> UserNameOk(f.userName) && EmailOk(f.email, isEmail) && DepartmentOk(f.department) && PasswordOk(f.password)
  {
    var bad := FieldErrors(f, isEmail);
    if !UserNameOk(f.userName) { assert UserNameField in bad; }
    if !EmailOk(f.email, isEmail) { assert EmailField in bad; }
    if !DepartmentOk(f.department) { assert DepartmentField in bad; }
    if !PasswordOk(f.password) { assert PasswordField in bad; }
  }

  /** After a sent submission the message for its outcome is non-empty: a
      success shows its message and clears the error; a failure shows its
      error (and keeps any earlier success text). */
  lemma OutcomeMessageShown(v: RegisterView, f: RegisterForm, isEmail: string -> bool, reply: Reply<Option<string>>)
    requires Submit(v, f, isEmail, reply).0
    ensures reply.Resolved? ==> Submit(v, f, isEmail, reply).1.errorMsg == "" && Submit(v, f, isEmail, reply).1.successMsg != ""
    ensures reply.Failed? ==> Submit(v, f, isEmail, reply).1.errorMsg != ""
  {
  }

  /** The username bounds are inclusive at both ends. */
  lemma UserNameBoundsInclusive(u: string)
    ensures |u| == 3 || |u| == 20 ==> UserNameOk(u)
    ensures |u| == 2 || |u| == 21 ==> !UserNameOk(u)
  {
  }
}
