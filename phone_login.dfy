/**
 * The state machine of PhoneLoginViewModel, as values: one transition per
 * command and provider callback, the traces they form, and the invariant the
 * verification screen relies on.
 */
module PhoneLogin {
  import opened Wrappers
  import opened Utils
  import opened Auth

  datatype PhoneLoginPage = EnterPhoneNumberPage | VerifyPage

  /** The observable fields of the view model, and its private verification id. */
  datatype PhoneUiState = PhoneUiState(
    page: PhoneLoginPage,
    loading: bool,
    sendingCodeAgain: bool,
    phoneNumber: Option<string>,
    verificationId: Option<string>,
    error: Option<Message>,
    signedIn: bool)

  /** The fields' initial values. */
  const Initial := PhoneUiState(EnterPhoneNumberPage, false, false, None, None, None, false)

  /** Every challenge asks the provider to give up after sixty seconds. */
  const VerificationTimeoutSeconds: nat := 60

  /** What one step leaves: the new state, and the provider call it made, if any. */
  datatype Outcome = Outcome(state: PhoneUiState, sent: Option<Request>)

  /** removeError: clears the error and nothing else. */
  function RemoveError(s: PhoneUiState): (r: PhoneUiState)
    ensures r.error.None?
    ensures r.(error := s.error) == s
  {
    s.(error := None)
  }

  /**
   * sendCode: offline, only the error changes; online, the number is stored,
   * loading is set (and left set: the callbacks clear it) and a challenge
   * with the sixty-second timeout is issued.
   */
  function SendCode(s: PhoneUiState, ctx: Context, phoneNumber: string): (r: Outcome)
    ensures !IsConnected(ctx) ==> r.sent.None? && r.state == s.(error := Some(Resource(YouAreOffline)))
    ensures IsConnected(ctx) ==>
      && r.sent == Some(VerifyPhoneNumber(phoneNumber, VerificationTimeoutSeconds))
      && r.state.phoneNumber == Some(phoneNumber) && r.state.loading
      && r.state.(phoneNumber := s.phoneNumber, loading := s.loading) == s
  {
    var t := ConnectedOrThrow(ctx);
    if t.Threw? then
      Outcome(s.(error := t.message), None)
    else
      Outcome(s.(phoneNumber := Some(phoneNumber), loading := true),
              Some(VerifyPhoneNumber(phoneNumber, VerificationTimeoutSeconds)))
  }

  /**
   * sendCodeAgain: reuses the stored number and raises sendingCodeAgain
   * instead of loading. A missing number fails the `!!` and posts the
   * NullPointerException's (absent) message.
   */
  function SendCodeAgain(s: PhoneUiState, ctx: Context): (r: Outcome)
    ensures r.state.loading == s.loading && r.state.page == s.page && r.state.signedIn == s.signedIn
    ensures r.state.phoneNumber == s.phoneNumber && r.state.verificationId == s.verificationId
    ensures r.sent.Some? <==> IsConnected(ctx) && s.phoneNumber.Some?
    ensures r.sent.Some? ==>
      && r.sent.value == VerifyPhoneNumber(s.phoneNumber.value, VerificationTimeoutSeconds)
      && r.state.sendingCodeAgain && r.state.error == s.error
    ensures r.sent.None? ==> r.state.sendingCodeAgain == s.sendingCodeAgain
    ensures !IsConnected(ctx) ==> r.state.error == Some(Resource(YouAreOffline))
    ensures IsConnected(ctx) && s.phoneNumber.None? ==> r.state.error == NullPointerMessage
  {
    var t := ConnectedOrThrow(ctx);
    if t.Threw? then
      Outcome(s.(error := t.message), None)
    else if s.phoneNumber.None? then
      Outcome(s.(error := NullPointerMessage), None)
    else
      var number := s.phoneNumber.value;
      Outcome(s.(phoneNumber := Some(number), sendingCodeAgain := true),
              Some(VerifyPhoneNumber(number, VerificationTimeoutSeconds)))
  }

  /**
   * login: loading is set, the credential goes to the provider, signedIn is
   * posted only if that returns, and loading is cleared on every path. No
   * other field moves.
   */
  function Login(s: PhoneUiState, credential: PhoneAuthCredential, remote: Remote): (r: Outcome)
    ensures r.sent == Some(SignInWithPhoneNumber(credential))
    ensures !r.state.loading
    ensures r.state.signedIn <==> s.signedIn || remote.Succeeds?
    ensures r.state.error == if remote.Succeeds? then s.error else ProviderMessage(remote.message)
    ensures r.state.(loading := s.loading, signedIn := s.signedIn, error := s.error) == s
  {
    var t := Await(remote);
    var settled := if t.Returned? then s.(signedIn := true) else s.(error := t.message);
    Outcome(settled.(loading := false), Some(SignInWithPhoneNumber(credential)))
  }

  /**
   * verify: the connectivity check first; then a missing verification id
   * fails the `!!` before any credential is built, and posts the
   * NullPointerException's (absent) message; otherwise login runs with the
   * credential for (verification id, code).
   */
  function Verify(s: PhoneUiState, ctx: Context, code: string, remote: Remote): (r: Outcome)
    ensures r.sent.Some? <==> IsConnected(ctx) && s.verificationId.Some?
    ensures r.sent.None? ==>
      r.state == s.(error := if IsConnected(ctx) then NullPointerMessage else Some(Resource(YouAreOffline)))
    ensures r.sent.Some? ==>
      && r.sent.value == SignInWithPhoneNumber(GetCredential(s.verificationId.value, code))
      && !r.state.loading
      && (r.state.signedIn <==> s.signedIn || remote.Succeeds?)
      && r.state.error == (if remote.Succeeds? then s.error else ProviderMessage(remote.message))
      && r.state.(loading := s.loading, signedIn := s.signedIn, error := s.error) == s
    ensures r.state.page == s.page && r.state.verificationId == s.verificationId
  {
    var t := ConnectedOrThrow(ctx);
    if t.Threw? then
      Outcome(s.(error := t.message), None)
    else if s.verificationId.None? then
      Outcome(s.(error := NullPointerMessage), None)
    else
      Login(s, GetCredential(s.verificationId.value, code), remote)
  }

  /** onVerificationCompleted: the provider verified on its own; login runs, and page and verification id stay. */
  function OnVerificationCompleted(s: PhoneUiState, credential: PhoneAuthCredential, remote: Remote): (r: Outcome)
    ensures r.sent == Some(SignInWithPhoneNumber(credential))
    ensures r.state.page == s.page && r.state.verificationId == s.verificationId
    ensures !r.state.loading && (r.state.signedIn <==> s.signedIn || remote.Succeeds?)
    ensures r.state.error == if remote.Succeeds? then s.error else ProviderMessage(remote.message)
    ensures r.state.(loading := s.loading, signedIn := s.signedIn, error := s.error) == s
  {
    Login(s, credential, remote)
  }

  /** onVerificationFailed: posts the failure's message and clears loading; the page stays. */
  function OnVerificationFailed(s: PhoneUiState, message: Option<string>): (r: PhoneUiState)
    ensures r.error == ProviderMessage(message) && !r.loading
    ensures r.(error := s.error, loading := s.loading) == s
  {
    s.(error := ProviderMessage(message), loading := false)
  }

  /** onCodeSent: keeps the verification id, clears loading and moves to the verification page. */
  function OnCodeSent(s: PhoneUiState, verificationId: string): (r: PhoneUiState)
    ensures r.verificationId == Some(verificationId) && !r.loading && r.page == VerifyPage
    ensures r.(verificationId := s.verificationId, loading := s.loading, page := s.page) == s
  {
    s.(verificationId := Some(verificationId), loading := false, page := VerifyPage)
  }

  /** A code is sent, the provider answers with id "vid1", and code "000000" is verified. */
  lemma SendCodeThenVerify(ctx: Context, remote: Remote)
    requires IsConnected(ctx) && remote.Succeeds?
    ensures var sent := SendCode(Initial, ctx, "+15551234567");
            var onVerify := OnCodeSent(sent.state, "vid1");
            var verified := Verify(onVerify, ctx, "000000", remote);
      && sent.sent == Some(VerifyPhoneNumber("+15551234567", 60))
      && onVerify.page == VerifyPage && !onVerify.loading && onVerify.phoneNumber == Some("+15551234567")
      && verified.sent == Some(SignInWithPhoneNumber(PhoneAuthCredential("vid1", "000000")))
      && verified.state.signedIn && !verified.state.loading
  {
  }

  // ------------------------------------------------------------------ traces

  /** The user's commands and the provider's callbacks. */
  datatype Event =
    | UserRemovesError
    | UserSendsCode(phoneNumber: string)
    | UserSendsCodeAgain
    | UserVerifies(code: string)
    | ProviderCompletesVerification(credential: PhoneAuthCredential)
    | ProviderFailsVerification(message: Option<string>)
    | ProviderSendsCode(verificationId: string)
  {
    predicate IsCallback() {
      ProviderCompletesVerification? || ProviderFailsVerification? || ProviderSendsCode?
    }
  }

  /** One event, with the outside world's answers at that moment: connectivity, and how the provider call it makes ends. */
  datatype Input = Input(event: Event, ctx: Context, remote: Remote)

  /** One event, run to completion. */
  function Step(s: PhoneUiState, i: Input): Outcome {
    match i.event
    case UserRemovesError => Outcome(RemoveError(s), None)
    case UserSendsCode(phoneNumber) => SendCode(s, i.ctx, phoneNumber)
    case UserSendsCodeAgain => SendCodeAgain(s, i.ctx)
    case UserVerifies(code) => Verify(s, i.ctx, code, i.remote)
    case ProviderCompletesVerification(credential) => OnVerificationCompleted(s, credential, i.remote)
    case ProviderFailsVerification(message) => Outcome(OnVerificationFailed(s, message), None)
    case ProviderSendsCode(verificationId) => Outcome(OnCodeSent(s, verificationId), None)
  }

  predicate IssuesChallenge(sent: Option<Request>) {
    sent.Some? && sent.value.VerifyPhoneNumber?
  }

  /** The view model's state, and whether a phone-number challenge has been issued on its behalf. */
  datatype Session = Session(ui: PhoneUiState, challengeIssued: bool)

  const Start := Session(Initial, false)

  function Next(w: Session, i: Input): Session {
    var r := Step(w.ui, i);
    Session(r.state, w.challengeIssued || IssuesChallenge(r.sent))
  }

  function Run(w: Session, trace: seq<Input>): Session
    decreases |trace|
  {
    if trace == [] then w else Run(Next(w, trace[0]), trace[1..])
  }

  /** The provider's side of the contract: a callback fires only once a challenge has been issued. */
  predicate CallbacksFollowChallenge(w: Session, trace: seq<Input>)
    decreases |trace|
  {
    trace == [] ||
    ((trace[0].event.IsCallback() ==> w.challengeIssued) && CallbacksFollowChallenge(Next(w, trace[0]), trace[1..]))
  }

  /**
   * What the verification page needs: once a challenge was issued there is a
   * stored number, and on that page there is a verification id and a number
   * (the screen dereferences the number with `!!`).
   */
  predicate Invariant(w: Session) {
    && (w.challengeIssued ==> w.ui.phoneNumber.Some?)
    && (w.ui.page == VerifyPage ==> w.ui.verificationId.Some? && w.ui.phoneNumber.Some?)
  }

  lemma StartSatisfiesInvariant()
    ensures Invariant(Start)
  {
  }

  /** One event keeps the invariant, provided a callback only follows an issued challenge. */
  lemma NextKeepsInvariant(w: Session, i: Input)
    requires Invariant(w)
    requires i.event.IsCallback() ==> w.challengeIssued
    ensures Invariant(Next(w, i))
  {
  }

  lemma {:induction false} RunKeepsInvariant(w: Session, trace: seq<Input>)
    requires Invariant(w)
    requires CallbacksFollowChallenge(w, trace)
    ensures Invariant(Run(w, trace))
    decreases |trace|
  {
    if trace != [] {
      NextKeepsInvariant(w, trace[0]);
      RunKeepsInvariant(Next(w, trace[0]), trace[1..]);
    }
  }

  /** Whatever the user and the provider do, the verification page always has a number and a verification id. */
  lemma VerifyPageHasNumberAndId(trace: seq<Input>)
    requires CallbacksFollowChallenge(Start, trace)
    ensures var w := Run(Start, trace);
      w.ui.page == VerifyPage ==> w.ui.phoneNumber.Some? && w.ui.verificationId.Some?
  {
    RunKeepsInvariant(Start, trace);
  }

  /**
   * On the verification page, online, neither command hits its `!!`: sending
   * again reaches the provider with the stored number, and verifying with the
   * stored verification id.
   */
  lemma VerifyPageCommandsReachProvider(w: Session, ctx: Context, code: string, remote: Remote)
    requires Invariant(w) && w.ui.page == VerifyPage && IsConnected(ctx)
    ensures SendCodeAgain(w.ui, ctx).sent == Some(VerifyPhoneNumber(w.ui.phoneNumber.value, VerificationTimeoutSeconds))
    ensures Verify(w.ui, ctx, code, remote).sent == Some(SignInWithPhoneNumber(GetCredential(w.ui.verificationId.value, code)))
  {
  }

  /**
   * Nothing ever goes back: sendingCodeAgain, the verification page, signedIn,
   * a stored number and an issued challenge all stay once reached.
   */
  lemma {:induction false} RunIsMonotone(w: Session, trace: seq<Input>)
    ensures w.ui.sendingCodeAgain ==> Run(w, trace).ui.sendingCodeAgain
    ensures w.ui.page == VerifyPage ==> Run(w, trace).ui.page == VerifyPage
    ensures w.ui.signedIn ==> Run(w, trace).ui.signedIn
    ensures w.ui.phoneNumber.Some? ==> Run(w, trace).ui.phoneNumber.Some?
    ensures w.challengeIssued ==> Run(w, trace).challengeIssued
    decreases |trace|
  {
    if trace != [] {
      RunIsMonotone(Next(w, trace[0]), trace[1..]);
    }
  }

  /** The page moves to verification only through the provider's code-sent callback. */
  lemma {:induction false} VerifyPageOnlyAfterCodeSent(w: Session, trace: seq<Input>)
    requires w.ui.page == EnterPhoneNumberPage
    requires Run(w, trace).ui.page == VerifyPage
    ensures exists k :: 0 <= k < |trace| && trace[k].event.ProviderSendsCode?
    decreases |trace|
  {
    if !trace[0].event.ProviderSendsCode? {
      VerifyPageOnlyAfterCodeSent(Next(w, trace[0]), trace[1..]);
      var k :| 0 <= k < |trace[1..]| && trace[1..][k].event.ProviderSendsCode?;
      assert trace[k + 1].event.ProviderSendsCode?;
    }
  }

  /** A step that signs in is a login whose provider call returned. */
  predicate SignsInOn(i: Input) {
    (i.event.UserVerifies? || i.event.ProviderCompletesVerification?) && i.remote.Succeeds?
  }

  /**
   * Step k of the trace, run from the state the first k steps reach, is a
   * login that sends the credential to the provider, succeeds and signs in.
   */
  predicate SignsInAt(w: Session, trace: seq<Input>, k: nat)
    requires k < |trace|
  {
    var r := Step(Run(w, trace[..k]).ui, trace[k]);
    SignsInOn(trace[k]) && r.sent.Some? && r.sent.value.SignInWithPhoneNumber? && r.state.signedIn
  }

  /**
   * signedIn becomes true only at a step that sends the credential through a
   * verification or an automatic completion and whose provider call succeeded.
   */
  lemma {:induction false} SignedInOnlyAfterLogin(w: Session, trace: seq<Input>)
    requires !w.ui.signedIn
    requires Run(w, trace).ui.signedIn
    ensures exists k: nat :: k < |trace| && SignsInAt(w, trace, k)
    decreases |trace|
  {
    if Step(w.ui, trace[0]).state.signedIn {
      assert trace[..0] == [];
      assert SignsInAt(w, trace, 0);
    } else {
      SignedInOnlyAfterLogin(Next(w, trace[0]), trace[1..]);
      var k: nat :| k < |trace[1..]| && SignsInAt(Next(w, trace[0]), trace[1..], k);
      assert trace[..k + 1][1..] == trace[1..][..k];
      assert SignsInAt(w, trace, k + 1);
    }
  }
}

/** PhoneLoginViewModel: its fields, updated step by step as the Kotlin class does. */
module PhoneLoginViewModel {
  import opened Wrappers
  import opened Utils
  import opened Auth
  import PhoneLogin

  class PhoneLoginViewModel {
    var loading: bool
    var signedIn: bool
    var error: Option<Message>
    var page: PhoneLogin.PhoneLoginPage
    var sendingCodeAgain: bool
    var phoneNumber: Option<string>
    var verificationId: Option<string>
    /** Whether verifyPhoneNumber has been called with this model's callbacks. */
    ghost var challengeIssued: bool

    function State(): PhoneLogin.PhoneUiState
      reads this
    {
      PhoneLogin.PhoneUiState(page, loading, sendingCodeAgain, phoneNumber, verificationId, error, signedIn)
    }

    ghost predicate Valid()
      reads this
    {
      PhoneLogin.Invariant(PhoneLogin.Session(State(), challengeIssued))
    }

    constructor ()
      ensures Valid() && State() == PhoneLogin.Initial && !challengeIssued
    {
      loading := false;
      signedIn := false;
      error := None;
      page := PhoneLogin.EnterPhoneNumberPage;
      sendingCodeAgain := false;
      phoneNumber := None;
      verificationId := None;
      challengeIssued := false;
    }

    method RemoveError()
      requires Valid()
      modifies this
      ensures Valid() && challengeIssued == old(challengeIssued)
      ensures State() == PhoneLogin.RemoveError(old(State()))
    {
      error := None;
    }

    method SendCode(ctx: Context, phoneNumber: string) returns (sent: Option<Request>)
      requires Valid()
      modifies this
      ensures Valid() && challengeIssued == (old(challengeIssued) || PhoneLogin.IssuesChallenge(sent))
      ensures PhoneLogin.Outcome(State(), sent) == PhoneLogin.SendCode(old(State()), ctx, phoneNumber)
    {
      sent := None;
      var t := ConnectedOrThrow(ctx);
      if t.Threw? {
        error := t.message;
        return;
      }
      this.phoneNumber := Some(phoneNumber);
      loading := true;
      sent := Some(VerifyPhoneNumber(phoneNumber, PhoneLogin.VerificationTimeoutSeconds));
      challengeIssued := true;
    }

    method SendCodeAgain(ctx: Context) returns (sent: Option<Request>)
      requires Valid()
      modifies this
      ensures Valid() && challengeIssued == (old(challengeIssued) || PhoneLogin.IssuesChallenge(sent))
      ensures PhoneLogin.Outcome(State(), sent) == PhoneLogin.SendCodeAgain(old(State()), ctx)
    {
      sent := None;
      var t := ConnectedOrThrow(ctx);
      if t.Threw? {
        error := t.message;
        return;
      }
      if phoneNumber.None? {
        error := NullPointerMessage;
        return;
      }
      phoneNumber := Some(phoneNumber.value);
      sendingCodeAgain := true;
      sent := Some(VerifyPhoneNumber(phoneNumber.value, PhoneLogin.VerificationTimeoutSeconds));
      challengeIssued := true;
    }

    method Verify(ctx: Context, code: string, remote: Remote) returns (sent: Option<Request>)
      requires Valid()
      modifies this
      ensures Valid() && challengeIssued == old(challengeIssued)
      ensures PhoneLogin.Outcome(State(), sent) == PhoneLogin.Verify(old(State()), ctx, code, remote)
    {
      sent := None;
      var t := ConnectedOrThrow(ctx);
      if t.Threw? {
        error := t.message;
        return;
      }
      if verificationId.None? {
        error := NullPointerMessage;
        return;
      }
      var credential := GetCredential(verificationId.value, code);
      sent := Login(credential, remote);
    }

    method Login(credential: PhoneAuthCredential, remote: Remote) returns (sent: Option<Request>)
      requires Valid()
      modifies this
      ensures Valid() && challengeIssued == old(challengeIssued)
      ensures PhoneLogin.Outcome(State(), sent) == PhoneLogin.Login(old(State()), credential, remote)
    {
      loading := true;
      sent := Some(SignInWithPhoneNumber(credential));
      var t := Await(remote);
      if t.Returned? {
        signedIn := true;
      } else {
        error := t.message;
      }
      loading := false;
    }

    method OnVerificationCompleted(credential: PhoneAuthCredential, remote: Remote) returns (sent: Option<Request>)
      requires Valid() && challengeIssued
      modifies this
      ensures Valid() && challengeIssued
      ensures PhoneLogin.Outcome(State(), sent) == PhoneLogin.OnVerificationCompleted(old(State()), credential, remote)
    {
      sent := Login(credential, remote);
    }

    method OnVerificationFailed(message: Option<string>)
      requires Valid() && challengeIssued
      modifies this
      ensures Valid() && challengeIssued
      ensures State() == PhoneLogin.OnVerificationFailed(old(State()), message)
    {
      error := ProviderMessage(message);
      loading := false;
    }

    method OnCodeSent(verificationId: string)
      requires Valid() && challengeIssued
      modifies this
      ensures Valid() && challengeIssued
      ensures State() == PhoneLogin.OnCodeSent(old(State()), verificationId)
    {
      this.verificationId := Some(verificationId);
      loading := false;
      page := PhoneLogin.VerifyPage;
    }
  }
}
