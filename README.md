# Login template: verified model of the sign-in view models

This project models the logic of an Android login app that signs users in
through a managed authentication provider. The model covers the three view
models and the validators they use:

- **EmailLoginViewModel**: sign up, sign in and password reset. Each runs the
  shared `launchDataLoad` pipeline: connectivity check, `loading := true`,
  validators, remote call, the exception's message into `error`, and
  `loading := false` in a `finally` clause. `changePage` moves between the
  sign-up, sign-in and recover-account pages.
- **PhoneLoginViewModel**: the SMS verification flow. It has three user
  commands (`sendCode`, `sendCodeAgain`, `verify`) and three provider
  callbacks (`onVerificationCompleted`, `onVerificationFailed`,
  `onCodeSent`).
- **WelcomeViewModel**: Google sign-in through the same try/catch/finally
  pipeline.
- **utils.kt**: the password, email and connectivity checks and
  `isSystemDarkMode`.

Each view model appears twice. A pure module (`EmailLogin`, `PhoneLogin`,
`Welcome`) holds the state as a datatype and one transition function per
operation, and the lemmas about them. A class (`EmailLoginViewModel`,
`PhoneLoginViewModel`, `WelcomeViewModel`) holds the same fields and runs
the Kotlin steps in order. Each method's postcondition equates the new state
with the transition function applied to the old state.

The outside world enters as parameters:

- `Context` gives the active network's transports and the configuration's
  `uiMode`.
- `emailAddress: string -> bool` stands for the platform email pattern.
- `Remote` says whether a provider call returns or throws, and with which
  message.
- Each provider callback is a method call.

Every method that may call the provider returns `sent`, the request it made, if any, so "no
remote call was made" can be stated. `postValue` is plain assignment, and
every launched coroutine runs to completion inside the call that launched it.
An exception's `localizedMessage` is an `Option`. A Kotlin `!!` on a null
value throws a NullPointerException with no message, so it posts `None`.

The phone flow is also given as traces of events (`PhoneLogin.Run`). Over
these traces the model proves that the verification page always has a phone
number and a verification id, provided callbacks arrive only after a challenge
was issued. The screen relies on this when it dereferences the number with
`!!` at app/src/main/java/com/carpenter/login/phoneLoginScreen/PhoneLoginScreen.kt:47. It also proves that
`sendingCodeAgain`, the verification page and `signedIn` never revert.

Three behaviours of the code are easy to misread, and the model keeps them as written:

- An operation does not clear `error` when it starts or when it succeeds.
  Only `removeError` clears it, or a failure whose message is null
  (`EmailLogin.SuccessKeepsEarlierError`).
- `loading` is set right after the connectivity check, before the
  validators. The final state is the same either way.
- A missing stored number in `sendCodeAgain`, or a missing verification id in
  `verify`, is not fatal. The `!!` failure is caught and its (absent) message
  is posted to `error`.

## Model

| member | source | states |
|---|---|---|
| Utils.ValidPasswordOrThrow | app/src/main/java/com/carpenter/login/utils/utils.kt:40-42 | throws, with the at-least-6-characters message, exactly when the password has fewer than 6 UTF-16 code units (Kotlin's `length`); for passwords inside the Basic Multilingual Plane that is fewer than 6 characters |
| Utils.PasswordLengthBoundary | app/src/main/java/com/carpenter/login/utils/utils.kt:40-42 | a 5-character password is rejected and a 6-character one accepted; four letters and an emoji (six code units) are accepted |
| Utils.Utf16Length | app/src/main/java/com/carpenter/login/utils/utils.kt:41 | Kotlin's string length: between one and two code units per character, and exactly one per character when none lies outside the Basic Multilingual Plane |
| Utils.ValidEmailOrThrow | app/src/main/java/com/carpenter/login/utils/utils.kt:44-47 | throws, with the not-a-valid-email message, exactly when the email pattern does not match |
| Utils.ManagerIsConnected | app/src/main/java/com/carpenter/login/utils/utils.kt:61-67 | no active network means offline; otherwise connected iff the network's transports meet {wifi, cellular, ethernet} |
| Utils.IsConnected | app/src/main/java/com/carpenter/login/utils/utils.kt:69-71 | the context is connected iff its active network exists and has a wifi, cellular or ethernet transport |
| Utils.OtherTransportsAreOffline | app/src/main/java/com/carpenter/login/utils/utils.kt:61-67 | a network with only Bluetooth, VPN, Wi-Fi Aware, LoWPAN or USB transports counts as offline |
| Utils.ConnectedOrThrow | app/src/main/java/com/carpenter/login/utils/utils.kt:73-75 | throws, with the offline message, exactly when the context is not connected |
| Utils.IsSystemDarkMode | app/src/main/java/com/carpenter/login/utils/utils.kt:77-79 | as written (add instead of and, with 32-bit wrap-around): true iff uiMode is -16, hence false for every non-negative uiMode |
| Utils.IsSystemDarkModeIntended | app/src/main/java/com/carpenter/login/utils/utils.kt:77-79 | corrected check: true iff bit 5 of uiMode is set and bit 4 is clear, the bit pattern of UI_MODE_NIGHT_YES within UI_MODE_NIGHT_MASK |
| Utils.IntendedReadsOnlyNightBits | app/src/main/java/com/carpenter/login/utils/utils.kt:77-79 | whatever the other bits, night "yes" reads as dark and night "no" or undefined does not |
| Utils.DarkModeMissedAsWritten | app/src/main/java/com/carpenter/login/utils/utils.kt:77-79 | for uiMode 0x21 (night yes, normal type) the code as written says not dark, the corrected check says dark |
| Utils.DarkThemeSetting | app/src/main/java/com/carpenter/login/emailLoginScreen/EmailLoginViewModel.kt:21 | the stored theme preference wins; without one, isSystemDarkMode as written decides, so the theme is dark only for uiMode -16 |
| Utils.DarkThemeSettingIntended | app/src/main/java/com/carpenter/login/emailLoginScreen/EmailLoginViewModel.kt:21 | with the corrected system check: the stored preference wins; without one, the theme is dark iff the night bits of uiMode say yes |
| Auth.ProviderMessage | app/src/main/java/com/carpenter/login/emailLoginScreen/EmailLoginViewModel.kt:73-74 | a provider exception's message is posted as its text, and a null message as no error |
| Auth.Await | app/src/main/java/com/carpenter/login/login/AuthRepository.kt:13-33 | a repository call returns iff the provider call succeeds; otherwise it throws the provider's message |
| EmailLogin.RemoveError | app/src/main/java/com/carpenter/login/emailLoginScreen/EmailLoginViewModel.kt:35-37 | clears error and changes no other field |
| EmailLogin.RemoveErrorIdempotent | app/src/main/java/com/carpenter/login/emailLoginScreen/EmailLoginViewModel.kt:35-37 | removing the error twice gives the same state as removing it once |
| EmailLogin.ChangePage | app/src/main/java/com/carpenter/login/emailLoginScreen/EmailLoginViewModel.kt:39-41 | the page becomes exactly the given one; loading, error and signedIn are unchanged |
| EmailLogin.ConfirmedOrThrow | app/src/main/java/com/carpenter/login/emailLoginScreen/EmailLoginViewModel.kt:47 | throws the passwords-do-not-match message exactly when the confirmation differs from the password |
| EmailLogin.Launch | app/src/main/java/com/carpenter/login/emailLoginScreen/EmailLoginViewModel.kt:68-78 | loading is false afterwards on every path; a request is sent iff connected and all validations pass, and it is the operation's own; offline, only the offline error is posted; signedIn turns true only after a successful sign-up or sign-in call; the page moves to sign-in only after a successful reset call |
| EmailLogin.SignUpChecksInOrder | app/src/main/java/com/carpenter/login/emailLoginScreen/EmailLoginViewModel.kt:43-52 | sign-up checks the email, then the password length, then the confirmation; the first failure decides the error and stops the sign-up call; when all pass, sign-up is called with the email and password |
| EmailLogin.SignInSkipsConfirmation | app/src/main/java/com/carpenter/login/emailLoginScreen/EmailLoginViewModel.kt:54-60 | sign-in leaves the same state as sign-up with matching passwords, and sends a request whenever sign-up would |
| EmailLogin.FailureIsPosted | app/src/main/java/com/carpenter/login/emailLoginScreen/EmailLoginViewModel.kt:68-78 | online, a failed validation posts its message; a failed remote call posts the provider's message and leaves signedIn and page unchanged |
| EmailLogin.SuccessKeepsEarlierError | app/src/main/java/com/carpenter/login/emailLoginScreen/EmailLoginViewModel.kt:68-78 | a successful operation leaves error as it was before |
| EmailLogin.SignUpScenarios | app/src/main/java/com/carpenter/login/emailLoginScreen/EmailLoginViewModel.kt:43-52 | from a fresh model, matching passwords sign in with no error; mismatching ones post the mismatch message and make no call |
| EmailLogin.ResetMovesPageOnlyOnSuccess | app/src/main/java/com/carpenter/login/emailLoginScreen/EmailLoginViewModel.kt:62-66 | the reset moves to the sign-in page iff online, the email is valid and the call succeeds; otherwise the page is unchanged; signedIn never changes |
| EmailLoginViewModel.EmailLoginViewModel.constructor | app/src/main/java/com/carpenter/login/emailLoginScreen/EmailLoginViewModel.kt:23-33 | a new model is not loading, not signed in, has no error and shows the sign-up page |
| EmailLoginViewModel.EmailLoginViewModel.RemoveError | app/src/main/java/com/carpenter/login/emailLoginScreen/EmailLoginViewModel.kt:35-37 | the new state is EmailLogin.RemoveError of the old one |
| EmailLoginViewModel.EmailLoginViewModel.ChangePage | app/src/main/java/com/carpenter/login/emailLoginScreen/EmailLoginViewModel.kt:39-41 | the new state is EmailLogin.ChangePage of the old one |
| EmailLoginViewModel.EmailLoginViewModel.SignUp | app/src/main/java/com/carpenter/login/emailLoginScreen/EmailLoginViewModel.kt:43-52 | the new state and the request sent are EmailLogin.Launch of the sign-up operation |
| EmailLoginViewModel.EmailLoginViewModel.SignIn | app/src/main/java/com/carpenter/login/emailLoginScreen/EmailLoginViewModel.kt:54-60 | the new state and the request sent are EmailLogin.Launch of the sign-in operation |
| EmailLoginViewModel.EmailLoginViewModel.SendPasswordResetEmail | app/src/main/java/com/carpenter/login/emailLoginScreen/EmailLoginViewModel.kt:62-66 | the new state and the request sent are EmailLogin.Launch of the reset operation |
| EmailLoginViewModel.EmailLoginViewModel.LaunchDataLoad | app/src/main/java/com/carpenter/login/emailLoginScreen/EmailLoginViewModel.kt:68-78 | the try/catch/finally run step by step ends in the state and request EmailLogin.Launch gives |
| EmailLoginViewModel.EmailLoginViewModel.RunBlock | app/src/main/java/com/carpenter/login/emailLoginScreen/EmailLoginViewModel.kt:43-66 | the block throws the first failing validation or the remote failure; it sends the request iff the validations pass; it posts signedIn or the page only when it returns |
| PhoneLogin.RemoveError | app/src/main/java/com/carpenter/login/phoneLoginScreen/PhoneLoginViewModel.kt:51-53 | clears error and changes no other field |
| PhoneLogin.SendCode | app/src/main/java/com/carpenter/login/phoneLoginScreen/PhoneLoginViewModel.kt:55-74 | offline, only error changes, to the offline message, and no challenge is issued; online, the number is stored, loading is set and left set, and a 60-second challenge for that number is issued |
| PhoneLogin.SendCodeAgain | app/src/main/java/com/carpenter/login/phoneLoginScreen/PhoneLoginViewModel.kt:76-96 | never touches loading, page, number, id or signedIn; a challenge for the stored number is issued iff online and a number is stored, and then sendingCodeAgain is set; a missing number posts the NullPointerException's absent message |
| PhoneLogin.Verify | app/src/main/java/com/carpenter/login/phoneLoginScreen/PhoneLoginViewModel.kt:98-106 | connectivity comes first; a request is sent iff online and a verification id is stored, and it is the credential for that id and code; otherwise only error changes (offline message, or the absent NPE message); when sent, loading ends false, signedIn becomes true only on success, a failure posts the provider's message, success keeps error, and no other field changes; page and id never change |
| PhoneLogin.Login | app/src/main/java/com/carpenter/login/phoneLoginScreen/PhoneLoginViewModel.kt:108-118 | sends the credential; signedIn becomes true only on provider success; error gets the provider's message on failure; loading ends false; nothing else changes |
| PhoneLogin.OnVerificationCompleted | app/src/main/java/com/carpenter/login/phoneLoginScreen/PhoneLoginViewModel.kt:121-123 | runs login with the provider's credential: loading ends false, signedIn becomes true only on success, a failure posts the provider's message, success keeps error, and page, verification id, number and sendingCodeAgain are unchanged |
| PhoneLogin.OnVerificationFailed | app/src/main/java/com/carpenter/login/phoneLoginScreen/PhoneLoginViewModel.kt:125-128 | posts the failure's message and clears loading; no other field, the page included, changes |
| PhoneLogin.OnCodeSent | app/src/main/java/com/carpenter/login/phoneLoginScreen/PhoneLoginViewModel.kt:130-137 | stores the verification id, clears loading and moves to the verification page; nothing else changes |
| PhoneLogin.SendCodeThenVerify | app/src/main/java/com/carpenter/login/phoneLoginScreen/PhoneLoginViewModel.kt:55-137 | sending a code, receiving id "vid1" and verifying "000000" online with provider success gives the verification page with the number stored and ends signed in, not loading |
| PhoneLogin.StartSatisfiesInvariant | app/src/main/java/com/carpenter/login/phoneLoginScreen/PhoneLoginViewModel.kt:31-49 | the initial fields satisfy the verification-page invariant |
| PhoneLogin.NextKeepsInvariant | app/src/main/java/com/carpenter/login/phoneLoginScreen/PhoneLoginViewModel.kt:55-137 | every command and callback keeps the invariant, if a callback only follows an issued challenge |
| PhoneLogin.RunKeepsInvariant | app/src/main/java/com/carpenter/login/phoneLoginScreen/PhoneLoginViewModel.kt:55-137 | every trace whose callbacks follow an issued challenge keeps the invariant |
| PhoneLogin.VerifyPageHasNumberAndId | app/src/main/java/com/carpenter/login/phoneLoginScreen/PhoneLoginViewModel.kt:130-137 | in every state reached from a new model by a trace whose callbacks follow an issued challenge, the verification page has a stored phone number and a verification id |
| PhoneLogin.VerifyPageCommandsReachProvider | app/src/main/java/com/carpenter/login/phoneLoginScreen/PhoneLoginViewModel.kt:76-106 | on the verification page, online, sending again issues a challenge for the stored number and verifying sends the credential for the stored id; neither hits its `!!` |
| PhoneLogin.RunIsMonotone | app/src/main/java/com/carpenter/login/phoneLoginScreen/PhoneLoginViewModel.kt:55-137 | along any trace, sendingCodeAgain, the verification page, signedIn, a stored number and an issued challenge are never undone |
| PhoneLogin.VerifyPageOnlyAfterCodeSent | app/src/main/java/com/carpenter/login/phoneLoginScreen/PhoneLoginViewModel.kt:130-137 | a trace reaches the verification page from the number page only through the code-sent callback |
| PhoneLogin.SignedInOnlyAfterLogin | app/src/main/java/com/carpenter/login/phoneLoginScreen/PhoneLoginViewModel.kt:108-123 | signedIn becomes true only at a step of the trace that, run from the state the earlier steps reach, is a verify or automatic completion that sends the credential to the provider, whose call succeeds, and that signs in |
| PhoneLoginViewModel.PhoneLoginViewModel.constructor | app/src/main/java/com/carpenter/login/phoneLoginScreen/PhoneLoginViewModel.kt:31-49 | a new model is on the number page, not loading or resending, with no number, id, error or sign-in; the invariant holds |
| PhoneLoginViewModel.PhoneLoginViewModel.RemoveError | app/src/main/java/com/carpenter/login/phoneLoginScreen/PhoneLoginViewModel.kt:51-53 | the new state is PhoneLogin.RemoveError of the old one; the invariant is kept |
| PhoneLoginViewModel.PhoneLoginViewModel.SendCode | app/src/main/java/com/carpenter/login/phoneLoginScreen/PhoneLoginViewModel.kt:55-74 | the new state and request are PhoneLogin.SendCode of the old state; the invariant is kept |
| PhoneLoginViewModel.PhoneLoginViewModel.SendCodeAgain | app/src/main/java/com/carpenter/login/phoneLoginScreen/PhoneLoginViewModel.kt:76-96 | the new state and request are PhoneLogin.SendCodeAgain of the old state; the invariant is kept |
| PhoneLoginViewModel.PhoneLoginViewModel.Verify | app/src/main/java/com/carpenter/login/phoneLoginScreen/PhoneLoginViewModel.kt:98-106 | the new state and request are PhoneLogin.Verify of the old state; the invariant is kept |
| PhoneLoginViewModel.PhoneLoginViewModel.Login | app/src/main/java/com/carpenter/login/phoneLoginScreen/PhoneLoginViewModel.kt:108-118 | the new state and request are PhoneLogin.Login of the old state; the invariant is kept |
| PhoneLoginViewModel.PhoneLoginViewModel.OnVerificationCompleted | app/src/main/java/com/carpenter/login/phoneLoginScreen/PhoneLoginViewModel.kt:121-123 | the new state and request are PhoneLogin.OnVerificationCompleted of the old state; the invariant is kept |
| PhoneLoginViewModel.PhoneLoginViewModel.OnVerificationFailed | app/src/main/java/com/carpenter/login/phoneLoginScreen/PhoneLoginViewModel.kt:125-128 | the new state is PhoneLogin.OnVerificationFailed of the old one; the invariant is kept |
| PhoneLoginViewModel.PhoneLoginViewModel.OnCodeSent | app/src/main/java/com/carpenter/login/phoneLoginScreen/PhoneLoginViewModel.kt:130-137 | the new state is PhoneLogin.OnCodeSent of the old one; the invariant is kept because a challenge preceded the callback |
| Welcome.RemoveError | app/src/main/java/com/carpenter/login/welcomeScreen/WelcomeViewModel.kt:34-36 | clears error and touches neither loading nor signedIn |
| Welcome.LoginWithGoogle | app/src/main/java/com/carpenter/login/welcomeScreen/WelcomeViewModel.kt:38-49 | loading ends false; a request is sent iff online, and it carries the token; offline posts the offline message; success sets signedIn and keeps error; failure posts the provider's message and keeps signedIn |
| Welcome.SignedInOnlyOnSuccess | app/src/main/java/com/carpenter/login/welcomeScreen/WelcomeViewModel.kt:41-48 | from signed out, the login signs in iff online and the provider call succeeds |
| WelcomeViewModel.WelcomeViewModel.constructor | app/src/main/java/com/carpenter/login/welcomeScreen/WelcomeViewModel.kt:25-32 | a new model is not loading, not signed in and has no error |
| WelcomeViewModel.WelcomeViewModel.RemoveError | app/src/main/java/com/carpenter/login/welcomeScreen/WelcomeViewModel.kt:34-36 | the new state is Welcome.RemoveError of the old one |
| WelcomeViewModel.WelcomeViewModel.LoginWithGoogle | app/src/main/java/com/carpenter/login/welcomeScreen/WelcomeViewModel.kt:38-49 | the try/catch/finally run step by step ends in the state and request Welcome.LoginWithGoogle gives |

## Left out

- The Compose screens, the fragments, Theme.kt and uiUtils.kt are not part of this model. They only render state and navigate. The swapped light and dark palette names in Theme.kt are constant data.
- AuthRepository.kt is not modelled beyond its five calls, which appear as `Auth.Request` values with outcomes given by `Remote`. Its `synchronized` singleton is a concurrency concern.
- `Task.await` in utils.kt is not modelled. It bridges callbacks into coroutines, and the model only keeps its result: return or throw (`Auth.Await`).
- LoginWithGoogle.kt (the Google account picker), DataStore.kt (the stored theme preference) and HomeViewModel.kt (the auth-state listener and sign-out) are not part of this model. The preference appears only as the `Option<bool>` that `Utils.DarkThemeSetting` receives.
- The email regex (Patterns.EMAIL_ADDRESS) and the ConnectivityManager query are platform code. They are parameters: `emailAddress` and `Context.activeNetwork`.
- String resource texts are not modelled. A validator's message is identified by its resource name (`Utils.StringRes`).
- LiveData `postValue` delivery, coalescing and threading, coroutine scheduling, and callbacks arriving on other threads are not modelled. Each command or callback is one atomic step, so the transient `loading = true` of `launchDataLoad`, `login` and `loginWithGoogle` is never observed between steps.
- `PhoneAuthProvider.verifyPhoneNumber` and `getCredential` are assumed not to throw synchronously. The provider's failures reach the model only through `onVerificationFailed` or a failed sign-in.
- The `Activity` passed to the phone commands is not modelled. The source passes it to the challenge only to scope the provider's callbacks to that activity.
- The resend token of `onCodeSent` and the `Job` that each launch returns are dropped. The source does not use them.
- PhoneLoginViewModel.PhoneLoginViewModel.OnVerificationCompleted, OnVerificationFailed and OnCodeSent require that a challenge has been issued (ghost field `challengeIssued`). This is the provider's contract: it registers these callbacks only through verifyPhoneNumber. The Kotlin methods do not check it.
- The commented-out phone-number validator in utils.kt is not modelled. It is dead code.

## Findings

| source | as written | input that shows it | evidently intended | confidence | as-written member | corrected member |
|---|---|---|---|---|---|---|
| app/src/main/java/com/carpenter/login/utils/utils.kt:77-79 | `uiMode + UI_MODE_NIGHT_MASK == UI_MODE_NIGHT_YES` is true only for uiMode -16, so the system night mode is never detected | uiMode 0x21 (UI_MODE_NIGHT_YES with UI_MODE_TYPE_NORMAL) gives false (Utils.DarkModeMissedAsWritten) | `uiMode and UI_MODE_NIGHT_MASK == UI_MODE_NIGHT_YES` | high; not executed | Utils.IsSystemDarkMode | Utils.IsSystemDarkModeIntended |
