/**
 * The sign-in / sign-up / reset-password dialog: its local checks and the
 * state each submission leaves behind. The three auth calls are not
 * performed here; their outcome is a parameter.
 */
module AuthForm {

  /** The `{type, text}` banner; both empty while nothing is shown. */
  datatype Message = Message(kind: string, text: string)

  const NoMessage: Message := Message("", "")

  function Error(text: string): Message {
    Message("error", text)
  }

  function Success(text: string): Message {
    Message("success", text)
  }

  const PasswordsDiffer: string := "Passwords do not match"
  const PasswordTooShort: string := "Password must be at least 6 characters"
  const CheckConfirmation: string := "Check your email for the confirmation link!"
  const CheckReset: string := "Check your email for the password reset link!"
  const Unexpected: string := "An unexpected error occurred"
  const MinPasswordLength: nat := 6

  datatype Form = Form(mode: string, email: string, password: string, confirmPassword: string,
                       loading: bool, message: Message)

  /** The dialog when first opened in `initialMode` (which defaults to "signin"). */
  function Open(initialMode: string): Form {
    Form(initialMode, "", "", "", false, NoMessage)
  }

  /** The auth call a submission makes, if any. */
  datatype Call = NoCall | SignUp(email: string, password: string) | SignIn(email: string, password: string)
                | ResetPassword(email: string)

  /** How the call ended: no error, an `{error}` reply, or an exception. */
  datatype Reply = Ok | Rejected(message: string) | Threw

  /** The form after a submission, the call it made, and whether `onClose` was invoked. */
  datatype Submitted = Submitted(form: Form, call: Call, closed: bool)

  /** `resetForm`: clears the three fields and the banner; mode and loading are kept. */
  function ResetForm(f: Form): (r: Form)
    ensures r.email == [] && r.password == [] && r.confirmPassword == [] && r.message == NoMessage
    ensures r.mode == f.mode && r.loading == f.loading
  {
    f.(email := "", password := "", confirmPassword := "", message := NoMessage)
  }

  /** The banner for a finished call that did not close the dialog. */
  function Banner(reply: Reply, success: string): Message {
    match reply
    case Ok => Success(success)
    case Rejected(m) => Error(m)
    case Threw => Error(Unexpected)
  }

  /**
   * `handleSubmit`. Sign-up first checks that the passwords agree and then
   * that the password has at least six characters; sign-in and reset make
   * their call straight away. A successful sign-in closes the dialog
   * through `handleClose`, which resets the form; any other ending leaves a
   * banner. `finally` clears the loading flag on every path.
   */
  function HandleSubmit(f: Form, reply: Reply): (r: Submitted)
    ensures !r.form.loading
    ensures r.form.mode == f.mode
    ensures r.call.SignUp? <==>
      f.mode == "signup" && f.password == f.confirmPassword && |f.password| >= MinPasswordLength
    ensures r.call.SignUp? ==> r.call == SignUp(f.email, f.password)
    ensures f.mode == "signup" && f.password != f.confirmPassword ==> r.form.message == Error(PasswordsDiffer)
    ensures f.mode == "signup" && f.password == f.confirmPassword && |f.password| < MinPasswordLength ==>
      r.form.message == Error(PasswordTooShort)
    ensures f.mode == "signin" <==> r.call == SignIn(f.email, f.password)
    ensures f.mode == "reset" <==> r.call == ResetPassword(f.email)
    ensures r.closed <==> f.mode == "signin" && reply == Ok
    ensures r.closed ==> r.form == ResetForm(f).(loading := false)
    ensures r.call != NoCall && !r.closed ==>
      r.form.message.kind == (if reply == Ok then "success" else "error")
    ensures r.call != NoCall && reply == Threw ==> r.form.message == Error(Unexpected)
    ensures r.call != NoCall && reply.Rejected? ==> r.form.message == Error(reply.message)
    ensures r.call.SignUp? && reply == Ok ==> r.form.message == Success(CheckConfirmation)
    ensures r.call.ResetPassword? && reply == Ok ==> r.form.message == Success(CheckReset)
    ensures r.call == NoCall ==> r.form.email == f.email && r.form.password == f.password
  {
    var busy := f.(loading := true, message := NoMessage);
    var r :=
      if f.mode == "signup" then
        if f.password != f.confirmPassword then Submitted(busy.(message := Error(PasswordsDiffer)), NoCall, false)
        else if |f.password| < MinPasswordLength then Submitted(busy.(message := Error(PasswordTooShort)), NoCall, false)
        else Submitted(busy.(message := Banner(reply, CheckConfirmation)), SignUp(f.email, f.password), false)
      else if f.mode == "signin" then
        if reply == Ok then Submitted(ResetForm(busy), SignIn(f.email, f.password), true)
        else Submitted(busy.(message := Banner(reply, "")), SignIn(f.email, f.password), false)
      else if f.mode == "reset" then
        Submitted(busy.(message := Banner(reply, CheckReset)), ResetPassword(f.email), false)
      else Submitted(busy, NoCall, false);
    r.(form := r.form.(loading := false))
  }

  /**
   * A sign-up whose password is too short or mistyped never reaches the
   * server, and submitting it again gives the same answer.
   */
  lemma RejectedSignUpIsStable(f: Form, reply1: Reply, reply2: Reply)
    requires f.mode == "signup"
    requires f.password != f.confirmPassword || |f.password| < MinPasswordLength
    ensures HandleSubmit(f, reply1).call == NoCall
    ensures HandleSubmit(HandleSubmit(f, reply1).form, reply2) == HandleSubmit(f, reply1)
  {
  }
}
