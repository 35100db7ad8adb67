/**
 * The early-access lock screen: a signup form that relays an email and phone
 * to the subscription endpoint, and a password form that unlocks the page.
 *
 * `GateState` is the component's state as a value; the functions below are
 * its transitions, and class `GateLockScreen` performs them in place. Browser
 * storage is a map field, and `unlocked` records that `onUnlock` was called.
 */
module GateLock {
  import opened Options
  import Subscribe

  const BothRequired := "Please enter both email and phone number"
  const InvalidEmail := "Please enter a valid email address"
  const ThankYou := "Thank you for signing up! You will receive a text with the password for early access."
  const Generic := "Something went wrong. Please try again."
  const EnterPassword := "Please enter a password"
  const InvalidPassword := "Invalid password. Please try again."

  /** The relay's parsed JSON answer, or an error thrown by the call or by parsing. */
  datatype RelayResult = Answered(data: Subscribe.Reply) | Failed

  datatype GateState = GateState(
    email: string,
    phone: string,
    password: string,
    error: string,
    successMessage: string,
    showPasswordForm: bool,
    isLoading: bool,
    storage: map<string, string>,
    unlocked: bool)

  /** Storage records an unlock by password. */
  predicate PasswordPersisted(storage: map<string, string>) {
    && "gateUnlocked" in storage && storage["gateUnlocked"] == "true"
    && "gateMethod" in storage && storage["gateMethod"] == "password"
  }

  /** `onUnlock` is only ever called once the unlock has been persisted. */
  predicate Consistent(s: GateState) {
    s.unlocked ==> PasswordPersisted(s.storage)
  }

  /** The state on mount: every field empty, nothing called yet. */
  function Initial(storage: map<string, string>): (s: GateState)
    ensures Consistent(s) && !s.unlocked && !s.isLoading && !s.showPasswordForm
    ensures s.storage == storage && s.error == "" && s.successMessage == ""
    ensures s.email == "" && s.phone == "" && s.password == ""
  {
    GateState("", "", "", "", "", false, false, storage, false)
  }

  // ---------------------------------------------------------------------------
  // Signup
  // ---------------------------------------------------------------------------

  /** `data.success` is truthy. */
  predicate RelaySucceeded(relay: RelayResult) {
    relay.Answered? && relay.data.success == Some(true)
  }

  /** `data.error || generic`, or the generic message when the call threw. */
  function RelayError(relay: RelayResult): (e: string)
    ensures e != ""
    ensures e == Generic || (relay.Answered? && relay.data.error == Some(e))
    ensures relay.Answered? && Truthy(relay.data.error) ==> e == relay.data.error.value
  {
    match relay
    case Answered(data) => if Truthy(data.error) then data.error.value else Generic
    case Failed => Generic
  }

  /** The state after a signup submit, and the relay request it made, if any. */
  datatype SignupStep = SignupStep(state: GateState, request: Option<Subscribe.Body>)

  /** `handleSignupSubmit`, with the relay's answer supplied. */
  function Signup(s: GateState, relay: RelayResult): (r: SignupStep)
    // signup never unlocks and never writes storage
    ensures r.state.storage == s.storage && r.state.unlocked == s.unlocked
    ensures r.state.password == s.password && r.state.showPasswordForm == s.showPasswordForm
    ensures r.request.Some? <==> s.email != "" && s.phone != "" && '@' in s.email
    // a validation failure only sets the error
    ensures s.email == "" || s.phone == "" ==> r.state == s.(error := BothRequired)
    ensures s.email != "" && s.phone != "" && '@' !in s.email ==> r.state == s.(error := InvalidEmail)
    ensures r.request.Some? ==>
      && r.request.value == Subscribe.Json(Subscribe.Text(s.email), Subscribe.Text(s.phone))
      && !r.state.isLoading
    ensures r.request.Some? && RelaySucceeded(relay) ==>
      && r.state.successMessage == ThankYou && r.state.error == ""
      && r.state.email == "" && r.state.phone == ""
    ensures r.request.Some? && !RelaySucceeded(relay) ==>
      && r.state.error == RelayError(relay) && r.state.successMessage == s.successMessage
      && r.state.email == s.email && r.state.phone == s.phone
  {
    var s := s.(error := "");
    if s.email == "" || s.phone == "" then
      SignupStep(s.(error := BothRequired), None)
    else if '@' !in s.email then
      SignupStep(s.(error := InvalidEmail), None)
    else
      var request := Subscribe.Json(Subscribe.Text(s.email), Subscribe.Text(s.phone));
      var s := s.(isLoading := true);
      var s :=
        if RelaySucceeded(relay) then s.(successMessage := ThankYou, email := "", phone := "")
        else s.(error := RelayError(relay));
      SignupStep(s.(isLoading := false), Some(request))
  }

  // ---------------------------------------------------------------------------
  // Password and toggle
  // ---------------------------------------------------------------------------

  /** The password unlocks: it is non-empty, a password is configured, and they are equal. */
  predicate PasswordMatches(password: string, gatePassword: string) {
    password != "" && gatePassword != "" && password == gatePassword
  }

  /** `handlePasswordSubmit`. */
  function SubmitPassword(s: GateState, gatePassword: string): (r: GateState)
    ensures Consistent(s) ==> Consistent(r)
    ensures r.unlocked <==> s.unlocked || PasswordMatches(s.password, gatePassword)
    ensures PasswordMatches(s.password, gatePassword) ==>
      && r.error == "" && PasswordPersisted(r.storage)
      && r.storage == s.storage["gateUnlocked" := "true"]["gateMethod" := "password"]
    // an empty or wrong password only sets the error
    ensures !PasswordMatches(s.password, gatePassword) ==>
      r == s.(error := if s.password == "" then EnterPassword else InvalidPassword)
    ensures r.email == s.email && r.phone == s.phone && r.password == s.password
    ensures r.successMessage == s.successMessage && r.showPasswordForm == s.showPasswordForm
    ensures r.isLoading == s.isLoading
  {
    var s := s.(error := "");
    if s.password == "" then
      s.(error := EnterPassword)
    else if gatePassword != "" && s.password == gatePassword then
      var storage := s.storage["gateUnlocked" := "true"];
      var storage := storage["gateMethod" := "password"];
      s.(storage := storage, unlocked := true)
    else
      s.(error := InvalidPassword)
  }

  /** The toggle button, rendered only when a password is configured. */
  function Toggle(s: GateState, gatePassword: string): (r: GateState)
    requires gatePassword != ""
    ensures r.showPasswordForm != s.showPasswordForm
    ensures r.error == "" && r.successMessage == ""
    ensures r.(showPasswordForm := s.showPasswordForm, error := s.error, successMessage := s.successMessage) == s
  {
    s.(showPasswordForm := !s.showPasswordForm, error := "", successMessage := "")
  }

  // ---------------------------------------------------------------------------
  // The component
  // ---------------------------------------------------------------------------

  class GateLockScreen {
    const gatePassword: string
    var email: string
    var phone: string
    var password: string
    var error: string
    var successMessage: string
    var showPasswordForm: bool
    var isLoading: bool
    var storage: map<string, string>
    var unlocked: bool

    function View(): GateState
      reads this
    {
      GateState(email, phone, password, error, successMessage, showPasswordForm, isLoading, storage, unlocked)
    }

    ghost predicate Valid()
      reads this
    {
      Consistent(View())
    }

    /** Mounting the component with the configured password (absent is ''). */
    constructor (gatePassword: string, storage: map<string, string>)
      ensures Valid() && View() == Initial(storage) && this.gatePassword == gatePassword
    {
      this.gatePassword := gatePassword;
      email, phone, password := "", "", "";
      error, successMessage := "", "";
      showPasswordForm, isLoading := false, false;
      this.storage := storage;
      unlocked := false;
    }

    /** The inputs' `onChange` handlers. */
    method EditEmail(value: string)
      requires Valid()
      modifies this
      ensures Valid()
      ensures View() == old(View()).(email := value)
    {
      email := value;
    }

    method EditPhone(value: string)
      requires Valid()
      modifies this
      ensures Valid()
      ensures View() == old(View()).(phone := value)
    {
      phone := value;
    }

    method EditPassword(value: string)
      requires Valid()
      modifies this
      ensures Valid()
      ensures View() == old(View()).(password := value)
    {
      password := value;
    }

    method HandleSignupSubmit(relay: RelayResult) returns (request: Option<Subscribe.Body>)
      requires Valid()
      modifies this
      ensures Valid()
      ensures SignupStep(View(), request) == Signup(old(View()), relay)
    {
      error := "";
      if email == "" || phone == "" {
        error := BothRequired;
        return None;
      }
      if '@' !in email {
        error := InvalidEmail;
        return None;
      }
      isLoading := true;
      request := Some(Subscribe.Json(Subscribe.Text(email), Subscribe.Text(phone)));
      if RelaySucceeded(relay) {
        successMessage := ThankYou;
        email := "";
        phone := "";
      } else {
        error := RelayError(relay);
      }
      isLoading := false;
    }

    method HandlePasswordSubmit()
      requires Valid()
      modifies this
      ensures Valid()
      ensures View() == SubmitPassword(old(View()), gatePassword)
    {
      error := "";
      if password == "" {
        error := EnterPassword;
        return;
      }
      if gatePassword != "" && password == gatePassword {
        storage := storage["gateUnlocked" := "true"];
        storage := storage["gateMethod" := "password"];
        unlocked := true;
      } else {
        error := InvalidPassword;
      }
    }

    method TogglePasswordForm()
      requires gatePassword != ""
      requires Valid()
      modifies this
      ensures Valid()
      ensures View() == Toggle(old(View()), gatePassword)
    {
      showPasswordForm := !showPasswordForm;
      error := "";
      successMessage := "";
    }
  }
}
