/** The PIN gate in front of the dashboard: which screen shows, the digit
    filter on the PIN field, and the set-PIN and unlock handlers, which act
    on the store. */
module AuthGuard {
  import opened Wrappers
  import Text
  import Store

  datatype Screen = Blank | Setup | Login | App

  datatype Gate = Gate(inputPin: string, error: string)

  const SetupError: string := "PIN must be exactly 4 digits"
  const LoginError: string := "Incorrect PIN"

  /** Nothing before the client has mounted; then setup while no PIN is set
      (a missing or empty PIN is falsy), login while locked, and the app once
      unlocked. */
  function ScreenOf(isClient: bool, s: Store.AppState): (sc: Screen)
    ensures sc == Blank <==> !isClient
    ensures sc == Setup <==> isClient && (s.pin.None? || s.pin.value == "")
    ensures sc == Login <==> isClient && s.pin.Some? && s.pin.value != "" && !s.isAuthenticated
    ensures sc == App <==> isClient && s.pin.Some? && s.pin.value != "" && s.isAuthenticated
  {
    if !isClient then Blank
    else if s.pin.None? || s.pin.value == "" then Setup
    else if !s.isAuthenticated then Login
    else App
  }

  /** Typing in the PIN field keeps only the digits and clears the error. */
  function OnInput(g: Gate, text: string): (r: Gate)
    ensures r.error == ""
    ensures forall i :: 0 <= i < |r.inputPin| ==> Text.IsDigit(r.inputPin[i])
    ensures r.inputPin == Text.DigitsOnly(text)
  {
    Gate(Text.DigitsOnly(text), "")
  }

  predicate FourDigits(p: string) {
    |p| == 4 && forall i :: 0 <= i < 4 ==> Text.IsDigit(p[i])
  }

  /** `handleSetPin`: only exactly four digits become the PIN (which also
      unlocks); anything else shows the setup error and leaves the store
      alone. */
  function HandleSetPin(g: Gate, s: Store.AppState): (res: (Gate, Store.AppState))
    ensures FourDigits(g.inputPin) ==>
      res == (g.(error := ""), s.(pin := Some(g.inputPin), isAuthenticated := true))
    ensures !FourDigits(g.inputPin) ==> res == (g.(error := SetupError), s)
  {
    if !FourDigits(g.inputPin) then (g.(error := SetupError), s)
    else (g.(error := ""), Store.SetPin(s, g.inputPin))
  }

  /** `handleLogin`: the field is cleared either way; a match unlocks, a
      mismatch shows the login error and leaves the store alone. */
  function HandleLogin(g: Gate, s: Store.AppState): (res: (Gate, Store.AppState))
    ensures res.0.inputPin == ""
    ensures s.pin == Some(g.inputPin) ==> res.0.error == "" && res.1 == s.(isAuthenticated := true)
    ensures s.pin != Some(g.inputPin) ==> res.0.error == LoginError && res.1 == s
  {
    var (ok, s') := Store.Authenticate(s, g.inputPin);
    if ok then (Gate("", ""), s') else (Gate("", LoginError), s')
  }

  /** Setting a valid PIN opens the app at once; after locking again, the
      same digits typed at the login screen open it again and any other
      entry keeps the login screen. */
  lemma SetupThenLogin(s: Store.AppState, typed: string, attempt: string)
    requires ScreenOf(true, s) == Setup
    requires FourDigits(Text.DigitsOnly(typed))
    ensures var (g1, s1) := HandleSetPin(OnInput(Gate("", ""), typed), s);
      && ScreenOf(true, s1) == App
      && var locked := Store.Logout(s1);
         && ScreenOf(true, locked) == Login
         && var (g2, s2) := HandleLogin(OnInput(g1, attempt), locked);
            (ScreenOf(true, s2) == App <==> Text.DigitsOnly(attempt) == Text.DigitsOnly(typed))
  {
  }

  /** Typed digits pass through the filter unchanged, so a four-digit entry
      is accepted as typed. */
  lemma DigitsAccepted(g: Gate, typed: string, s: Store.AppState)
    requires FourDigits(typed)
    ensures HandleSetPin(OnInput(g, typed), s).1.pin == Some(typed)
  {
    Text.DigitsOnlyKeepsDigits(typed);
  }
}
