/**
 * What the view models hand to the authentication provider (through the
 * repository or the phone-verification API) and what comes back.
 */
module Auth {
  import opened Wrappers
  import opened Utils

  /** A phone credential: the verification id of a sent code and the code itself. */
  datatype PhoneAuthCredential = PhoneAuthCredential(verificationId: string, smsCode: string)

  /** PhoneAuthProvider.getCredential. */
  function GetCredential(verificationId: string, code: string): PhoneAuthCredential {
    PhoneAuthCredential(verificationId, code)
  }

  /** One call into the provider. */
  datatype Request =
    | SignUpWithEmail(email: string, password: string)
    | SignInWithEmail(email: string, password: string)
    | SendPasswordResetEmail(email: string)
    | LoginWithGoogle(idToken: string)
    | SignInWithPhoneNumber(credential: PhoneAuthCredential)
    | VerifyPhoneNumber(phoneNumber: string, timeoutSeconds: nat)

  /** How a remote call ends: normally, or with an exception whose message may be null. */
  datatype Remote = Succeeds | Fails(message: Option<string>)

  /** A provider exception's localizedMessage, as the catch blocks post it. */
  function ProviderMessage(message: Option<string>): (r: Option<Message>)
    ensures r.None? <==> message.None?
    ensures r.Some? ==> r.value.Text? && r.value.text == message.value
  {
    match message
    case None => None
    case Some(m) => Some(Text(m))
  }

  /** `await` on the call's task, as its caller sees it: it returns, or throws the provider's exception. */
  function Await(remote: Remote): (r: Try)
    ensures r.Returned? <==> remote.Succeeds?
    ensures remote.Fails? ==> r.message == ProviderMessage(remote.message)
  {
    match remote
    case Succeeds => Returned
    case Fails(m) => Threw(ProviderMessage(m))
  }
}
