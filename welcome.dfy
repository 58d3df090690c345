/** The state machine of WelcomeViewModel, as values. */
module Welcome {
  import opened Wrappers
  import opened Utils
  import opened Auth

  /** The three observable fields of the view model. */
  datatype WelcomeUiState = WelcomeUiState(loading: bool, signedIn: bool, error: Option<Message>)

  /** The fields' initial values. */
  const Initial := WelcomeUiState(false, false, None)

  /** What one Google login leaves: the new state, and the provider call it made, if any. */
  datatype Outcome = Outcome(state: WelcomeUiState, sent: Option<Request>)

  /** removeError: clears the error and touches nothing else. */
  function RemoveError(s: WelcomeUiState): (r: WelcomeUiState)
    ensures r.error.None?
    ensures r.loading == s.loading && r.signedIn == s.signedIn
  {
    s.(error := None)
  }

  /**
   * loginWithGoogle: offline, the offline message and no call; online, the
   * token goes to the provider, signedIn is posted if it returns and its
   * message otherwise; loading is cleared on every path.
   */
  function LoginWithGoogle(s: WelcomeUiState, ctx: Context, idToken: string, remote: Remote): (r: Outcome)
    ensures !r.state.loading
    ensures r.sent.Some? <==> IsConnected(ctx)
    ensures r.sent.Some? ==> r.sent.value == Request.LoginWithGoogle(idToken)
    ensures !IsConnected(ctx) ==> r.state == WelcomeUiState(false, s.signedIn, Some(Resource(YouAreOffline)))
    ensures IsConnected(ctx) && remote.Succeeds? ==> r.state == WelcomeUiState(false, true, s.error)
    ensures IsConnected(ctx) && remote.Fails? ==>
      r.state == WelcomeUiState(false, s.signedIn, ProviderMessage(remote.message))
  {
    var connected := ConnectedOrThrow(ctx);
    if connected.Threw? then
      Outcome(s.(loading := false, error := connected.message), None)
    else
      var called := Await(remote);
      var settled := if called.Threw? then s.(error := called.message) else s.(signedIn := true);
      Outcome(settled.(loading := false), Some(Request.LoginWithGoogle(idToken)))
  }

  /** signedIn becomes true only through a provider call that returned, and a failed login leaves it as it was. */
  lemma SignedInOnlyOnSuccess(s: WelcomeUiState, ctx: Context, idToken: string, remote: Remote)
    requires !s.signedIn
    ensures LoginWithGoogle(s, ctx, idToken, remote).state.signedIn <==> IsConnected(ctx) && remote.Succeeds?
  {
  }
}

/** WelcomeViewModel: its fields, updated step by step as the Kotlin class does. */
module WelcomeViewModel {
  import opened Wrappers
  import opened Utils
  import opened Auth
  import Welcome

  class WelcomeViewModel {
    var loading: bool
    var signedIn: bool
    var error: Option<Message>

    function State(): Welcome.WelcomeUiState
      reads this
    {
      Welcome.WelcomeUiState(loading, signedIn, error)
    }

    constructor ()
      ensures State() == Welcome.Initial
    {
      loading := false;
      signedIn := false;
      error := None;
    }

    method RemoveError()
      modifies this
      ensures State() == Welcome.RemoveError(old(State()))
    {
      error := None;
    }

    /** try { connectedOrThrow; loading := true; login; signedIn := true } catch { error := message } finally { loading := false } */
    method LoginWithGoogle(ctx: Context, idToken: string, remote: Remote) returns (sent: Option<Request>)
      modifies this
      ensures Welcome.Outcome(State(), sent) == Welcome.LoginWithGoogle(old(State()), ctx, idToken, remote)
    {
      sent := None;
      var t := ConnectedOrThrow(ctx);
      if t.Returned? {
        loading := true;
        sent := Some(Request.LoginWithGoogle(idToken));
        t := Await(remote);
        if t.Returned? {
          signedIn := true;
        }
      }
      if t.Threw? {
        error := t.message;
      }
      loading := false;
    }
  }
}
