/** The sign-up screen's submit flow: the form is validated first, and only
    a valid form reaches `handleSignUp`, which creates the account and then
    signs in through the session provider. On a failure it lowers the
    submitting flag and shows a toast; on success it leaves the flag raised. */
module SignUp {
  import opened Wrappers
  import opened Errors
  import Api
  import AuthContext
  import opened SignUpForm

  const DefaultErrorTitle := "Não foi possível criar a conta. Tente novamente mais tarde."

  /** The toast title for a failure: an `AppError` shows its own message,
      anything else the fixed default. */
  function ErrorTitle(e: Error): (title: string)
    ensures e.AppError? ==> title == e.message
    ensures e.Unexpected? ==> title == "Não foi possível criar a conta. Tente novamente mais tarde."
  {
    if e.AppError? then e.message else DefaultErrorTitle
  }

  /** What one run of `handleSignUp` leaves behind: the screen's submitting
      flag, the requests sent in order, the toast title shown (if any) and the
      session provider's world. */
  datatype SignUpRun = SignUpRun(
    isSubmitting: bool,
    requests: seq<Api.Request>,
    toast: Option<string>,
    auth: AuthContext.World)

  /** `handleSignUp`: raise the flag, `POST /users`, then sign in with the
      same email and password. `created` is the outcome of the account
      creation and `session` the response to the sign-in request. */
  function HandleSignUp(form: FormData, auth: AuthContext.World, created: Outcome<Error>,
                        session: AuthContext.SessionsResponse): (r: SignUpRun)
    ensures 1 <= |r.requests| <= 2
    ensures r.requests[0] == Api.PostUsers(form.name, form.email, form.password)
    ensures |r.requests| == 2 <==> created.Pass?
    ensures created.Pass? ==> r.requests[1] == Api.PostSessions(form.email, form.password)
    ensures created.Fail? ==>
              && !r.isSubmitting
              && r.toast == Some(ErrorTitle(created.error))
              && r.auth == auth
    ensures created.Pass? && session.RequestFailed? ==>
              && !r.isSubmitting
              && r.toast == Some(ErrorTitle(session.error))
              && r.auth == auth
    ensures created.Pass? && session.Responded? ==>
              && r.isSubmitting
              && r.toast == None
              && r.auth == AuthContext.SignIn(auth, form.email, form.password, session).world
  {
    var create := Api.PostUsers(form.name, form.email, form.password);
    match created
    case Fail(error) => SignUpRun(false, [create], Some(ErrorTitle(error)), auth)
    case Pass =>
      var signIn := AuthContext.SignIn(auth, form.email, form.password, session);
      match signIn.raised
      case Some(error) => SignUpRun(false, [create] + signIn.requests, Some(ErrorTitle(error)), signIn.world)
      case None => SignUpRun(true, [create] + signIn.requests, None, signIn.world)
  }

  /** A press of the submit button: rejected with the schema's messages, or
      handed to `handleSignUp`. */
  datatype Submission = Rejected(errors: seq<FieldError>) | Handled(run: SignUpRun)

  function Submit(form: FormData, isEmail: string -> bool, auth: AuthContext.World,
                  created: Outcome<Error>, session: AuthContext.SessionsResponse): (s: Submission)
    ensures s.Handled? <==> SignUpFormValid(form, isEmail)
    ensures s.Rejected? ==> s.errors != [] && s.errors == Validate(SignUpFormSchema, form, isEmail)
    ensures s.Handled? ==> s.run == HandleSignUp(form, auth, created, session)
  {
    ValidateAcceptsExactlyValidForms(form, isEmail);
    var errors := Validate(SignUpFormSchema, form, isEmail);
    if errors != [] then Rejected(errors) else Handled(HandleSignUp(form, auth, created, session))
  }

  /** The confirmation field is never sent to the backend, and the password
      sent is the one validated. */
  lemma ConfirmationNeverSent(form: FormData, auth: AuthContext.World, created: Outcome<Error>,
                              session: AuthContext.SessionsResponse)
    ensures var r := HandleSignUp(form, auth, created, session);
            forall i :: 0 <= i < |r.requests| ==>
              && "password_confirm" !in r.requests[i].body
              && r.requests[i].body["password"] == form.password
  {
  }

  /** A submission that creates the account and gets a user back leaves
      that user signed in and persisted, and the button still spinning. */
  lemma SuccessfulSignUpSignsIn(form: FormData, isEmail: string -> bool, auth: AuthContext.World, u: AuthContext.User)
    requires SignUpFormValid(form, isEmail)
    ensures var s := Submit(form, isEmail, auth, Pass, AuthContext.Responded(Some(u)));
            && s.Handled?
            && s.run.isSubmitting
            && s.run.toast == None
            && s.run.auth.state.user == AuthContext.SignedIn(u)
            && s.run.auth.stored == Some(u)
  {
  }

  /** When the sign-in response carries no user, nothing fails: no toast,
      nobody signed in, and the submitting flag stays raised. */
  lemma SignInWithoutUserKeepsSpinning(form: FormData, auth: AuthContext.World)
    ensures var r := HandleSignUp(form, auth, Pass, AuthContext.Responded(None));
            && r.isSubmitting
            && r.toast == None
            && r.auth == auth
  {
  }

  /** An `AppError` raised by either remote step reaches the toast with its
      own message: the provider rethrows it unchanged. */
  lemma AppErrorMessageReachesToast(form: FormData, auth: AuthContext.World, m: string, createFails: bool)
    ensures var r := if createFails
                     then HandleSignUp(form, auth, Fail(AppError(m)), AuthContext.Responded(None))
                     else HandleSignUp(form, auth, Pass, AuthContext.RequestFailed(AppError(m)));
            !r.isSubmitting && r.toast == Some(m)
  {
  }

  /** A handled submission keeps the provider's storage-backs-user
      invariant. (A rejected one carries no requests and no world: nothing
      reaches the provider.) */
  lemma SubmitKeepsStorageBackingUser(form: FormData, isEmail: string -> bool, auth: AuthContext.World,
                                      created: Outcome<Error>, session: AuthContext.SessionsResponse)
    requires AuthContext.StorageBacksUser(auth)
    ensures var s := Submit(form, isEmail, auth, created, session);
            s.Handled? ==> AuthContext.StorageBacksUser(s.run.auth)
  {
  }
}
