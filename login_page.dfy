/** The sign-in / sign-up form (src/pages/Login.tsx): the checks made before
    the form is handed to the store, in the order the page makes them. */
module LoginPage {

  datatype Mode = SignIn | SignUp

  /** `formData`. */
  datatype FormData = FormData(username: string, email: string, password: string, confirmPassword: string)

  /** The outcome of the checks: an error shown on the form, or the call made on the store. */
  datatype Verdict =
    | MissingCredentials
    | MissingUsername
    | PasswordMismatch
    | DispatchLogin(email: string, password: string)
    | DispatchRegister(username: string, email: string, password: string)

  /** The checks at the top of `handleSubmit`: email and password first, then,
      when signing up, the username and the password confirmation. */
  function Validate(mode: Mode, f: FormData): (v: Verdict)
    ensures v == MissingCredentials <==> f.email == "" || f.password == ""
    ensures v == MissingUsername <==> mode == SignUp && f.email != "" && f.password != "" && f.username == ""
    ensures v == PasswordMismatch <==>
      mode == SignUp && f.email != "" && f.password != "" && f.username != "" && f.password != f.confirmPassword
    ensures v.DispatchLogin? <==> mode == SignIn && f.email != "" && f.password != ""
    ensures v.DispatchRegister? <==>
      mode == SignUp && f.email != "" && f.password != "" && f.username != "" && f.password == f.confirmPassword
    ensures v.DispatchLogin? ==> v == DispatchLogin(f.email, f.password)
    ensures v.DispatchRegister? ==> v == DispatchRegister(f.username, f.email, f.password)
  {
    if f.email == "" || f.password == "" then MissingCredentials
    else if mode == SignUp && f.username == "" then MissingUsername
    else if mode == SignUp && f.password != f.confirmPassword then PasswordMismatch
    else if mode == SignIn then DispatchLogin(f.email, f.password)
    else
      assert mode == SignUp && f.password == f.confirmPassword;
      DispatchRegister(f.username, f.email, f.password)
  }

  /** The message `setError` shows for a verdict, or none when the form is dispatched. */
  function ErrorMessage(v: Verdict): (m: string)
    ensures m == "" <==> v.DispatchLogin? || v.DispatchRegister?
  {
    match v
    case MissingCredentials => "请填写邮箱和密码"
    case MissingUsername => "请填写用户名"
    case PasswordMismatch => "两次输入的密码不一致"
    case _ => ""
  }

  /** The message shown once the store has answered a dispatched form: a
      refused login and a refused registration have their own messages, and a
      success shows none (the page navigates away instead). */
  function AnswerMessage(v: Verdict, success: bool): (m: string)
    ensures v.DispatchLogin? && !success ==> m == "邮箱或密码错误"
    ensures v.DispatchRegister? && !success ==> m == "该邮箱已被注册"
    ensures m == "" <==> success || !(v.DispatchLogin? || v.DispatchRegister?)
  {
    if success then ""
    else match v
      case DispatchLogin(_, _) => "邮箱或密码错误"
      case DispatchRegister(_, _, _) => "该邮箱已被注册"
      case _ => ""
  }

  /** Signing in never looks at the username or the confirmation. */
  lemma SignInIgnoresSignUpFields(f: FormData, g: FormData)
    requires f.email == g.email && f.password == g.password
    ensures Validate(SignIn, f) == Validate(SignIn, g)
  {
  }

  /** A missing email or password is reported first in both modes, whatever else is wrong. */
  lemma CredentialsCheckedFirst(mode: Mode, f: FormData)
    requires f.email == "" || f.password == ""
    ensures ErrorMessage(Validate(mode, f)) == "请填写邮箱和密码"
  {
  }
}
