/** The validators and device predicates of utils.kt. */
module Utils {
  import opened Wrappers

  /** The string resources the validators throw with; their text lives in the app's resources. */
  datatype StringRes =
    | YouAreOffline
    | NotAValidEmail
    | PasswordShouldBeAtLeast6Characters
    | PasswordsDoNotMatch

  /** The localized message of a caught exception: an app string resource, or text from elsewhere. */
  datatype Message = Resource(id: StringRes) | Text(text: string)

  /**
   * How a statement that may throw ends: it returns normally, or it throws an
   * exception whose `localizedMessage` (possibly null) is all the catch blocks read.
   */
  datatype Try = Returned | Threw(message: Option<Message>) {

    /** Two statements in one try block: the second runs only if the first returned. */
    function Then(next: Try): Try {
      if Threw? then this else next
    }
  }

  /** The message a Kotlin `!!` on a null value throws with: a NullPointerException has none. */
  const NullPointerMessage: Option<Message> := None

  // ---------------------------------------------------------------- validators

  const MinPasswordLength: nat := 6

  /** How many UTF-16 code units a character takes: two above the Basic Multilingual Plane, one otherwise. */
  function CodeUnits(c: char): nat {
    if c >= '\U{10000}' then 2 else 1
  }

  /** Kotlin's String.length: the number of UTF-16 code units, so a character outside the BMP counts twice. */
  function Utf16Length(s: string): (r: nat)
    ensures |s| <= r <= 2 * |s|
    ensures (forall i :: 0 <= i < |s| ==> s[i] < '\U{10000}') ==> r == |s|
    decreases |s|
  {
    if s == [] then 0 else CodeUnits(s[0]) + Utf16Length(s[1..])
  }

  /** validPasswordOrThrow: a password shorter than six UTF-16 code units is rejected. */
  function ValidPasswordOrThrow(password: string): (r: Try)
    ensures r.Threw? <==> Utf16Length(password) < MinPasswordLength
    ensures r.Threw? ==> r.message == Some(Resource(PasswordShouldBeAtLeast6Characters))
    ensures (forall i :: 0 <= i < |password| ==> password[i] < '\U{10000}') ==> (r.Threw? <==> |password| < MinPasswordLength)
  {
    if Utf16Length(password) < 6 then Threw(Some(Resource(PasswordShouldBeAtLeast6Characters))) else Returned
  }

  /**
   * Length 5 is the longest rejected password and length 6 the shortest
   * accepted one; four letters and an emoji make six code units and pass.
   */
  lemma PasswordLengthBoundary()
    ensures ValidPasswordOrThrow("abcde").Threw?
    ensures ValidPasswordOrThrow("abcdef").Returned?
    ensures ValidPasswordOrThrow("abcd\U{1F600}").Returned?
  {
    var emoji := "abcd\U{1F600}";
    assert emoji[1..] == "bcd\U{1F600}" && emoji[2..] == "cd\U{1F600}" && emoji[3..] == "d\U{1F600}" && emoji[4..] == "\U{1F600}";
    assert Utf16Length("\U{1F600}") == 2;
  }

  /**
   * validEmailOrThrow. The platform's email pattern (Patterns.EMAIL_ADDRESS) is
   * not modelled: `emailAddress` stands for whether it matches a string.
   */
  function ValidEmailOrThrow(emailAddress: string -> bool, email: string): (r: Try)
    ensures r.Threw? <==> !emailAddress(email)
    ensures r.Threw? ==> r.message == Some(Resource(NotAValidEmail))
  {
    if !emailAddress(email) then Threw(Some(Resource(NotAValidEmail))) else Returned
  }

  // -------------------------------------------------------------- connectivity

  /** The transports NetworkCapabilities can report. */
  datatype Transport = Cellular | Wifi | Bluetooth | Ethernet | Vpn | WifiAware | Lowpan | Usb

  datatype NetworkCapabilities = NetworkCapabilities(transports: set<Transport>) {
    predicate HasTransport(t: Transport) {
      t in transports
    }
  }

  /**
   * What the app asks its Context: the capabilities of the active network
   * (null when there is none) and the configuration's uiMode, a Kotlin Int.
   */
  datatype Context = Context(activeNetwork: Option<NetworkCapabilities>, uiMode: bv32)

  /** The transports that count as being online. */
  const OnlineTransports: set<Transport> := {Wifi, Cellular, Ethernet}

  /** ConnectivityManager.isConnected: some active network has a wifi, cellular or ethernet transport. */
  function ManagerIsConnected(capabilities: Option<NetworkCapabilities>): (r: bool)
    ensures capabilities.None? ==> !r
    ensures capabilities.Some? ==> (r <==> capabilities.value.transports * OnlineTransports != {})
  {
    match capabilities
    case None => false
    case Some(c) =>
      var wifiConnected := c.HasTransport(Wifi);
      var mobileDataActive := c.HasTransport(Cellular);
      var ethernetConnected := c.HasTransport(Ethernet);
      assert wifiConnected ==> Wifi in c.transports * OnlineTransports;
      assert mobileDataActive ==> Cellular in c.transports * OnlineTransports;
      assert ethernetConnected ==> Ethernet in c.transports * OnlineTransports;
      wifiConnected || mobileDataActive || ethernetConnected
  }

  /** Context.isConnected: the same question put to the context's connectivity service. */
  function IsConnected(ctx: Context): (r: bool)
    ensures r <==> ctx.activeNetwork.Some? && ctx.activeNetwork.value.transports * OnlineTransports != {}
  {
    ManagerIsConnected(ctx.activeNetwork)
  }

  /** A network reached only over Bluetooth, VPN or another transport outside the three counts as offline. */
  lemma OtherTransportsAreOffline(ctx: Context)
    requires ctx.activeNetwork.Some?
    requires ctx.activeNetwork.value.transports <= {Bluetooth, Vpn, WifiAware, Lowpan, Usb}
    ensures !IsConnected(ctx)
  {
  }

  /** connectedOrThrow: throws the offline message exactly when the device is not connected. */
  function ConnectedOrThrow(ctx: Context): (r: Try)
    ensures r.Threw? <==> !IsConnected(ctx)
    ensures r.Threw? ==> r.message == Some(Resource(YouAreOffline))
  {
    if !IsConnected(ctx) then Threw(Some(Resource(YouAreOffline))) else Returned
  }

  // ----------------------------------------------------------------- dark mode

  /** Configuration.UI_MODE_NIGHT_MASK and the values of the night bits. */
  const UiModeNightMask: bv32 := 0x30
  const UiModeNightYes: bv32 := 0x20
  const UiModeNightNo: bv32 := 0x10
  const UiModeTypeNormal: bv32 := 0x01

  /**
   * isSystemDarkMode as written: it ADDS the mask to uiMode (Kotlin's Int `+`,
   * which wraps around) and compares with UI_MODE_NIGHT_YES. That holds for one
   * uiMode only, -16, so never for a non-negative one.
   */
  function IsSystemDarkMode(ctx: Context): (r: bool)
    ensures r <==> ctx.uiMode == 0xFFFF_FFF0
    ensures ctx.uiMode < 0x8000_0000 ==> !r
  {
    ctx.uiMode + UiModeNightMask == UiModeNightYes
  }

  /**
   * isSystemDarkMode as evidently intended: the night bits of uiMode, selected
   * with a bitwise `and`, say "yes" -- that is, bit 5 is set and bit 4 is clear.
   */
  function IsSystemDarkModeIntended(ctx: Context): (r: bool)
    ensures r <==> (ctx.uiMode >> 5) & 1 == 1 && (ctx.uiMode >> 4) & 1 == 0
  {
    ctx.uiMode & UiModeNightMask == UiModeNightYes
  }

  /**
   * The intended check reads the night bits and nothing else: whatever the other
   * bits of uiMode (the UI mode type, ...), night "yes" is dark and night "no" or
   * undefined is not.
   */
  lemma IntendedReadsOnlyNightBits(ctx: Context, other: bv32)
    requires other & UiModeNightMask == 0
    ensures IsSystemDarkModeIntended(ctx.(uiMode := other | UiModeNightYes))
    ensures !IsSystemDarkModeIntended(ctx.(uiMode := other | UiModeNightNo))
    ensures !IsSystemDarkModeIntended(ctx.(uiMode := other))
  {
  }

  /** The counterexample: a normal-type configuration in night mode (0x21) is not seen as dark by the code as written. */
  lemma DarkModeMissedAsWritten(ctx: Context)
    requires ctx.uiMode == UiModeNightYes | UiModeTypeNormal
    ensures !IsSystemDarkMode(ctx)
    ensures IsSystemDarkModeIntended(ctx)
  {
  }

  /**
   * The view models' isDarkTheme: the stored preference when there is one,
   * otherwise isSystemDarkMode as written, so without a preference the theme is
   * light for every non-negative uiMode.
   */
  function DarkThemeSetting(preference: Option<bool>, ctx: Context): (r: bool)
    ensures preference.Some? ==> r == preference.value
    ensures preference.None? ==> (r <==> ctx.uiMode == 0xFFFF_FFF0)
  {
    preference.GetOr(IsSystemDarkMode(ctx))
  }

  /** isDarkTheme with the corrected system check: without a preference, the night bits decide. */
  function DarkThemeSettingIntended(preference: Option<bool>, ctx: Context): (r: bool)
    ensures preference.Some? ==> r == preference.value
    ensures preference.None? ==> (r <==> (ctx.uiMode >> 5) & 1 == 1 && (ctx.uiMode >> 4) & 1 == 0)
  {
    preference.GetOr(IsSystemDarkModeIntended(ctx))
  }
}
