/**
 * `pages/ProfilePage.tsx`: the profile form's schema (a username length
 * rule, an email check and a cross-field password rule) and what a
 * successful submit does to the auth store and the form. The email format
 * check of the schema library is a parameter.
 */
module ProfilePage {
  import opened Base
  import AuthStore

  /** The form data; `None` is an absent (undefined) optional field. */
  datatype Form = Form(
    username: string, email: string,
    currentPassword: Option<string>, newPassword: Option<string>, confirmPassword: Option<string>)

  /** A validation issue: the field it is reported on and its message. */
  datatype Issue = Issue(path: string, message: string)

  /** JavaScript truthiness of an optional string: present and non-empty. */
  predicate Truthy(s: Option<string>) {
    s.Some? && s.value != ""
  }

  /** The username rule: 3 to 50 characters. */
  function UsernameIssues(username: string): (r: seq<Issue>)
    ensures r == [] <==> 3 <= |username| <= 50
    ensures |r| <= 1
  {
    if |username| < 3 then [Issue("username", "用户名至少3个字符")]
    else if |username| > 50 then [Issue("username", "用户名不能超过50个字符")]
    else []
  }

  /**
   * The `refine` rule: when a new or confirmed password is given, the
   * current password must be given and the two new ones must agree.
   */
  predicate PasswordRule(f: Form) {
    if Truthy(f.newPassword) || Truthy(f.confirmPassword) then
      Truthy(f.currentPassword) && f.newPassword == f.confirmPassword
    else true
  }

  const EmailIssue := Issue("email", "请输入有效的邮箱地址")
  const RefineIssue := Issue("confirmPassword", "密码信息不完整或不匹配")

  /**
   * The schema's verdict. A failed length or email check only marks the
   * parse dirty, so the object-level refinement still runs: its issue, on
   * `confirmPassword`, follows the field issues whenever the password
   * rule fails.
   */
  function Validate(f: Form, emailValid: string -> bool): (issues: seq<Issue>)
    ensures issues == [] <==> 3 <= |f.username| <= 50 && emailValid(f.email) && PasswordRule(f)
    ensures |issues| == |UsernameIssues(f.username)| + (if emailValid(f.email) then 0 else 1)
      + (if PasswordRule(f) then 0 else 1)
    ensures issues[..|UsernameIssues(f.username)|] == UsernameIssues(f.username)
    ensures EmailIssue in issues <==> !emailValid(f.email)
    ensures RefineIssue in issues <==> !PasswordRule(f)
    ensures !PasswordRule(f) ==> issues[|issues| - 1] == RefineIssue
  {
    var fieldIssues := UsernameIssues(f.username) + (if emailValid(f.email) then [] else [EmailIssue]);
    fieldIssues + (if PasswordRule(f) then [] else [RefineIssue])
  }

  /**
   * A short username does not hide a password mismatch: both are reported,
   * the username first.
   */
  lemma FieldIssuesKeepRule(email: string, emailValid: string -> bool)
    requires emailValid(email)
    ensures Validate(Form("ab", email, None, Some("x"), None), emailValid) ==
      [Issue("username", "用户名至少3个字符"), RefineIssue]
  {
  }

  /** Without a new or confirmed password the current one does not matter. */
  lemma NoNewPasswordIgnoresCurrent(f: Form, current: Option<string>)
    requires !Truthy(f.newPassword) && !Truthy(f.confirmPassword)
    ensures PasswordRule(f) && PasswordRule(f.(currentPassword := current))
  {
  }

  /** A form that passes with a new password has confirmed it and given the current one. */
  lemma NewPasswordIsConfirmed(f: Form, emailValid: string -> bool)
    requires Validate(f, emailValid) == [] && Truthy(f.newPassword)
    ensures f.confirmPassword == f.newPassword && Truthy(f.currentPassword)
  {
  }

  /** An unconfirmed new password is refused on the confirmation field, whatever the current password. */
  lemma UnconfirmedRefused(username: string, email: string, current: Option<string>, newPassword: string, emailValid: string -> bool)
    requires 3 <= |username| <= 50 && emailValid(email) && newPassword != ""
    ensures Validate(Form(username, email, current, Some(newPassword), None), emailValid) == [RefineIssue]
  {
  }

  /** The outcome of a submit: refused with the schema's issues, or saved. */
  datatype Submission = Refused(issues: seq<Issue>) | Saved(auth: AuthStore.State, form: Form, message: string)

  /**
   * A submit: the schema's issues when there are any; otherwise the
   * username and email are merged into the signed-in user and the form is
   * reset with the password fields emptied.
   */
  function Submit(f: Form, auth: AuthStore.State, emailValid: string -> bool): (r: Submission)
    ensures r.Refused? <==> Validate(f, emailValid) != []
    ensures r.Refused? ==> r.issues == Validate(f, emailValid)
    ensures r.Saved? ==> (r.form == Form(f.username, f.email, Some(""), Some(""), Some(""))
      && r.message == "个人资料更新成功"
      && r.auth == AuthStore.UpdateUser(auth, AuthStore.Patch(None, Some(f.username), Some(f.email), None, None, None, None, None)))
  {
    var issues := Validate(f, emailValid);
    if issues != [] then Refused(issues)
    else
      Saved(
        AuthStore.UpdateUser(auth, AuthStore.Patch(None, Some(f.username), Some(f.email), None, None, None, None, None)),
        Form(f.username, f.email, Some(""), Some(""), Some("")),
        "个人资料更新成功")
  }

  /**
   * After a save the reset form passes again, the signed-in user carries
   * the new username and email with everything else kept, and nobody
   * signed in stays nobody.
   */
  lemma SavedFormResubmits(f: Form, auth: AuthStore.State, emailValid: string -> bool)
    requires Submit(f, auth, emailValid).Saved?
    ensures Validate(Submit(f, auth, emailValid).form, emailValid) == []
    ensures auth.user.Some? ==> (Submit(f, auth, emailValid).auth.user ==
      Some(auth.user.value.(username := f.username, email := f.email)))
    ensures auth.user == None ==> Submit(f, auth, emailValid).auth == auth
    ensures Submit(f, auth, emailValid).auth.token == auth.token
  {
  }
}
