/**
 * The login and registration form schemas. Whether a string is an e-mail address is
 * the schema library's own check and is a parameter here.
 */
module AuthValidation {

  /** The fields a validation issue can be attached to. */
  datatype AuthField = NameField | EmailField | PasswordField | ConfirmPasswordField

  datatype LoginForm = LoginForm(email: string, password: string)

  datatype RegisterForm = RegisterForm(name: string, email: string, password: string, confirmPassword: string)

  /** The least password length both forms demand. */
  const MinPasswordLength: nat := 8

  /** The fields the login schema flags, in field order. */
  function LoginIssues(f: LoginForm, isEmail: string -> bool): (issues: seq<AuthField>)
    ensures EmailField in issues <==> !isEmail(f.email)
    ensures PasswordField in issues <==> |f.password| < MinPasswordLength
    ensures NameField !in issues && ConfirmPasswordField !in issues
  {
    (if !isEmail(f.email) then [EmailField] else [])
    + (if |f.password| < MinPasswordLength then [PasswordField] else [])
  }

  /** The fields the register schema flags: the per-field checks, then the equality refinement,
      whose issue is attached to the confirmation field. */
  function RegisterIssues(f: RegisterForm, isEmail: string -> bool): (issues: seq<AuthField>)
    ensures NameField in issues <==> f.name == []
    ensures EmailField in issues <==> !isEmail(f.email)
    ensures PasswordField in issues <==> |f.password| < MinPasswordLength
    ensures ConfirmPasswordField in issues <==> f.confirmPassword != f.password
  {
    (if f.name == [] then [NameField] else [])
    + (if !isEmail(f.email) then [EmailField] else [])
    + (if |f.password| < MinPasswordLength then [PasswordField] else [])
    + (if f.password != f.confirmPassword then [ConfirmPasswordField] else [])
  }

  /** A registration is accepted exactly when the login form with the same e-mail and password
      would be, the name is non-empty and the confirmation repeats the password. */
  lemma RegisterAcceptsIff(f: RegisterForm, isEmail: string -> bool)
    ensures RegisterIssues(f, isEmail) == [] <==>
      LoginIssues(LoginForm(f.email, f.password), isEmail) == []
      && f.name != [] && f.confirmPassword == f.password
  {
    var r := RegisterIssues(f, isEmail);
    var l := LoginIssues(LoginForm(f.email, f.password), isEmail);
    if r != [] {
      assert r[0] in r;
    }
    if l != [] {
      assert l[0] in l;
    }
  }
}
