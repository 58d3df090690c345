/**
 * The state machine of EmailLoginViewModel, as values: one transition function
 * per operation, and what each promises.
 */
module EmailLogin {
  import opened Wrappers
  import opened Utils
  import opened Auth

  datatype Page = SignUpPage | SignInPage | RecoverAccountPage

  /** The four observable fields of the view model. */
  datatype EmailUiState = EmailUiState(loading: bool, signedIn: bool, error: Option<Message>, page: Page)

  /** The fields' initial values. */
  const Initial := EmailUiState(false, false, None, SignUpPage)

  /** The three operations that run through launchDataLoad, with their arguments. */
  datatype Operation =
    | SignUp(email: string, password: string, confirmedPassword: string)
    | SignIn(email: string, password: string)
    | SendPasswordResetEmail(email: string)

  /** What one launched operation leaves: the new state, and the provider call it made, if any. */
  datatype Outcome = Outcome(state: EmailUiState, sent: Option<Request>)

  /** removeError: clears the error and nothing else. */
  function RemoveError(s: EmailUiState): (r: EmailUiState)
    ensures r.error.None?
    ensures r.(error := s.error) == s
  {
    s.(error := None)
  }

  /** Dismissing the error twice is dismissing it once. */
  lemma RemoveErrorIdempotent(s: EmailUiState)
    ensures RemoveError(RemoveError(s)) == RemoveError(s)
  {
  }

  /** changePage: moves to exactly the given page and leaves loading, error and signedIn as they were. */
  function ChangePage(s: EmailUiState, p: Page): (r: EmailUiState)
    ensures r.page == p
    ensures r.loading == s.loading && r.error == s.error && r.signedIn == s.signedIn
  {
    s.(page := p)
  }

  /** The check signUp makes by hand: the confirmation must equal the password. */
  function ConfirmedOrThrow(password: string, confirmedPassword: string): (r: Try)
    ensures r.Threw? <==> confirmedPassword != password
    ensures r.Threw? ==> r.message == Some(Resource(PasswordsDoNotMatch))
  {
    if confirmedPassword != password then Threw(Some(Resource(PasswordsDoNotMatch))) else Returned
  }

  /** The validations an operation's block runs before its remote call, in source order. */
  function Validate(op: Operation, emailAddress: string -> bool): Try {
    match op
    case SignUp(email, password, confirmedPassword) =>
      ValidEmailOrThrow(emailAddress, email)
        .Then(ValidPasswordOrThrow(password))
        .Then(ConfirmedOrThrow(password, confirmedPassword))
    case SignIn(email, password) =>
      ValidEmailOrThrow(emailAddress, email).Then(ValidPasswordOrThrow(password))
    case SendPasswordResetEmail(email) =>
      ValidEmailOrThrow(emailAddress, email)
  }

  /** The repository call an operation's block makes once its validations pass. */
  function RequestOf(op: Operation): Request {
    match op
    case SignUp(email, password, _) => SignUpWithEmail(email, password)
    case SignIn(email, password) => SignInWithEmail(email, password)
    case SendPasswordResetEmail(email) => Request.SendPasswordResetEmail(email)
  }

  /** What the block posts after its remote call returned normally. */
  function Succeeded(s: EmailUiState, op: Operation): EmailUiState {
    match op
    case SendPasswordResetEmail(_) => s.(page := SignInPage)
    case _ => s.(signedIn := true)
  }

  /**
   * launchDataLoad running `op`'s block: the connectivity check, then the
   * validations and the remote call; the message of whatever threw goes to
   * `error`, and the finally clause clears `loading` on every path.
   */
  function Launch(s: EmailUiState, op: Operation, ctx: Context, emailAddress: string -> bool, remote: Remote): (r: Outcome)
    ensures !r.state.loading
    ensures r.sent.Some? <==> IsConnected(ctx) && Validate(op, emailAddress).Returned?
    ensures r.sent.Some? ==> r.sent.value == RequestOf(op)
    ensures !IsConnected(ctx) ==> r.state == s.(loading := false, error := Some(Resource(YouAreOffline)))
    ensures r.state.signedIn <==> s.signedIn || (r.sent.Some? && remote.Succeeds? && !op.SendPasswordResetEmail?)
    ensures r.state.page == if r.sent.Some? && remote.Succeeds? && op.SendPasswordResetEmail? then SignInPage else s.page
  {
    var connected := ConnectedOrThrow(ctx);
    var validated := Validate(op, emailAddress);
    if connected.Threw? then
      Outcome(s.(loading := false, error := connected.message), None)
    else if validated.Threw? then
      Outcome(s.(loading := false, error := validated.message), None)
    else
      var called := Await(remote);
      var settled := if called.Threw? then s.(error := called.message) else Succeeded(s, op);
      Outcome(settled.(loading := false), Some(RequestOf(op)))
  }

  /**
   * signUp checks the email, then the password length, then the confirmation;
   * the first check that fails decides the error and no sign-up call is made.
   */
  lemma SignUpChecksInOrder(s: EmailUiState, email: string, password: string, confirmedPassword: string,
                            ctx: Context, emailAddress: string -> bool, remote: Remote)
    requires IsConnected(ctx)
    ensures var r := Launch(s, SignUp(email, password, confirmedPassword), ctx, emailAddress, remote);
      && (!emailAddress(email) ==>
            r.sent.None? && r.state.error == Some(Resource(NotAValidEmail)))
      && (emailAddress(email) && Utf16Length(password) < MinPasswordLength ==>
            r.sent.None? && r.state.error == Some(Resource(PasswordShouldBeAtLeast6Characters)))
      && (emailAddress(email) && Utf16Length(password) >= MinPasswordLength && confirmedPassword != password ==>
            r.sent.None? && r.state.error == Some(Resource(PasswordsDoNotMatch)))
      && (emailAddress(email) && Utf16Length(password) >= MinPasswordLength && confirmedPassword == password ==>
            r.sent == Some(SignUpWithEmail(email, password)))
  {
  }

  /**
   * signIn is signUp without the confirmation check: it leaves the state that
   * signUp leaves when the confirmation equals the password.
   */
  lemma SignInSkipsConfirmation(s: EmailUiState, email: string, password: string, confirmedPassword: string,
                                ctx: Context, emailAddress: string -> bool, remote: Remote)
    ensures Launch(s, SignIn(email, password), ctx, emailAddress, remote).state
         == Launch(s, SignUp(email, password, password), ctx, emailAddress, remote).state
    ensures Launch(s, SignIn(email, password), ctx, emailAddress, remote).sent.Some?
        <== Launch(s, SignUp(email, password, confirmedPassword), ctx, emailAddress, remote).sent.Some?
  {
  }

  /** Every failure is posted: offline, a validation, or the provider's own message. */
  lemma FailureIsPosted(s: EmailUiState, op: Operation, ctx: Context, emailAddress: string -> bool, remote: Remote)
    requires IsConnected(ctx)
    ensures var r := Launch(s, op, ctx, emailAddress, remote);
      && (Validate(op, emailAddress).Threw? ==> r.state.error == Validate(op, emailAddress).message)
      && (r.sent.Some? && remote.Fails? ==>
            r.state.error == ProviderMessage(remote.message) && r.state.signedIn == s.signedIn && r.state.page == s.page)
  {
  }

  /**
   * A successful operation does not clear an earlier error: only removeError
   * does. The error field after success is whatever it was before.
   */
  lemma SuccessKeepsEarlierError(s: EmailUiState, op: Operation, ctx: Context, emailAddress: string -> bool, remote: Remote)
    requires remote.Succeeds?
    ensures var r := Launch(s, op, ctx, emailAddress, remote);
      r.sent.Some? ==> r.state.error == s.error
  {
  }

  /**
   * The two sign-up scenarios from a fresh model: matching passwords and a
   * provider that accepts sign the user in; mismatching ones stop before any
   * call, with the mismatch message.
   */
  lemma SignUpScenarios(ctx: Context, emailAddress: string -> bool, remote: Remote)
    requires IsConnected(ctx) && emailAddress("a@b.com") && remote.Succeeds?
    ensures Launch(Initial, SignUp("a@b.com", "secret1", "secret1"), ctx, emailAddress, remote)
         == Outcome(EmailUiState(false, true, None, SignUpPage), Some(SignUpWithEmail("a@b.com", "secret1")))
    ensures Launch(Initial, SignUp("a@b.com", "secret1", "secret2"), ctx, emailAddress, remote)
         == Outcome(EmailUiState(false, false, Some(Resource(PasswordsDoNotMatch)), SignUpPage), None)
  {
  }

  /** sendPasswordResetEmail moves to the sign-in page only if validation and the remote call succeed. */
  lemma ResetMovesPageOnlyOnSuccess(s: EmailUiState, email: string, ctx: Context, emailAddress: string -> bool, remote: Remote)
    ensures var r := Launch(s, Operation.SendPasswordResetEmail(email), ctx, emailAddress, remote);
      && (r.state.page == SignInPage <== IsConnected(ctx) && emailAddress(email) && remote.Succeeds?)
      && (!(IsConnected(ctx) && emailAddress(email) && remote.Succeeds?) ==> r.state.page == s.page)
      && r.state.signedIn == s.signedIn
  {
  }
}

/** EmailLoginViewModel: its fields, updated step by step as the Kotlin class does. */
module EmailLoginViewModel {
  import opened Wrappers
  import opened Utils
  import opened Auth
  import EmailLogin

  class EmailLoginViewModel {
    var loading: bool
    var signedIn: bool
    var error: Option<Message>
    var page: EmailLogin.Page

    function State(): EmailLogin.EmailUiState
      reads this
    {
      EmailLogin.EmailUiState(loading, signedIn, error, page)
    }

    constructor ()
      ensures State() == EmailLogin.Initial
    {
      loading := false;
      signedIn := false;
      error := None;
      page := EmailLogin.SignUpPage;
    }

    method RemoveError()
      modifies this
      ensures State() == EmailLogin.RemoveError(old(State()))
    {
      error := None;
    }

    method ChangePage(p: EmailLogin.Page)
      modifies this
      ensures State() == EmailLogin.ChangePage(old(State()), p)
    {
      page := p;
    }

    method SignUp(ctx: Context, emailAddress: string -> bool, email: string, password: string, confirmedPassword: string, remote: Remote)
      returns (sent: Option<Request>)
      modifies this
      ensures EmailLogin.Outcome(State(), sent)
           == EmailLogin.Launch(old(State()), EmailLogin.SignUp(email, password, confirmedPassword), ctx, emailAddress, remote)
    {
      sent := LaunchDataLoad(EmailLogin.SignUp(email, password, confirmedPassword), ctx, emailAddress, remote);
    }

    method SignIn(ctx: Context, emailAddress: string -> bool, email: string, password: string, remote: Remote)
      returns (sent: Option<Request>)
      modifies this
      ensures EmailLogin.Outcome(State(), sent)
           == EmailLogin.Launch(old(State()), EmailLogin.SignIn(email, password), ctx, emailAddress, remote)
    {
      sent := LaunchDataLoad(EmailLogin.SignIn(email, password), ctx, emailAddress, remote);
    }

    method SendPasswordResetEmail(ctx: Context, emailAddress: string -> bool, email: string, remote: Remote)
      returns (sent: Option<Request>)
      modifies this
      ensures EmailLogin.Outcome(State(), sent)
           == EmailLogin.Launch(old(State()), EmailLogin.SendPasswordResetEmail(email), ctx, emailAddress, remote)
    {
      sent := LaunchDataLoad(EmailLogin.SendPasswordResetEmail(email), ctx, emailAddress, remote);
    }

    /** try { connectedOrThrow; loading := true; block } catch { error := message } finally { loading := false } */
    method LaunchDataLoad(op: EmailLogin.Operation, ctx: Context, emailAddress: string -> bool, remote: Remote)
      returns (sent: Option<Request>)
      modifies this
      ensures EmailLogin.Outcome(State(), sent) == EmailLogin.Launch(old(State()), op, ctx, emailAddress, remote)
    {
      sent := None;
      var t := ConnectedOrThrow(ctx);
      if t.Returned? {
        loading := true;
        t, sent := RunBlock(op, emailAddress, remote);
      }
      if t.Threw? {
        error := t.message;
      }
      loading := false;
    }

    /** The block an operation hands to launchDataLoad: its validators, its remote call, and what it posts on success. */
    method RunBlock(op: EmailLogin.Operation, emailAddress: string -> bool, remote: Remote)
      returns (t: Try, sent: Option<Request>)
      modifies this
      ensures t == EmailLogin.Validate(op, emailAddress).Then(Await(remote))
      ensures sent == if EmailLogin.Validate(op, emailAddress).Returned? then Some(EmailLogin.RequestOf(op)) else None
      ensures State() == if t.Returned? then EmailLogin.Succeeded(old(State()), op) else old(State())
    {
      sent := None;
      match op
      case SignUp(email, password, confirmedPassword) =>
        t := ValidEmailOrThrow(emailAddress, email);
        if t.Threw? { return; }
        t := ValidPasswordOrThrow(password);
        if t.Threw? { return; }
        t := EmailLogin.ConfirmedOrThrow(password, confirmedPassword);
        if t.Threw? { return; }
        sent := Some(SignUpWithEmail(email, password));
        t := Await(remote);
        if t.Threw? { return; }
        signedIn := true;
      case SignIn(email, password) =>
        t := ValidEmailOrThrow(emailAddress, email);
        if t.Threw? { return; }
        t := ValidPasswordOrThrow(password);
        if t.Threw? { return; }
        sent := Some(SignInWithEmail(email, password));
        t := Await(remote);
        if t.Threw? { return; }
        signedIn := true;
      case SendPasswordResetEmail(email) =>
        t := ValidEmailOrThrow(emailAddress, email);
        if t.Threw? { return; }
        sent := Some(Request.SendPasswordResetEmail(email));
        t := Await(remote);
        if t.Threw? { return; }
        page := EmailLogin.SignInPage;
    }
  }
}
