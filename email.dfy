/** The sign-in pop-up (`src/components/email.tsx`): a login form and a sign-up
    form over one set of fields, client-side checks before each request, and the
    message line under the button, shown green for success and red otherwise. */
module EmailLogin {
  import opened Base
  import opened Text
  import opened Json
  import opened Gateway

  const FIELDS_REQUIRED: string := "All fields are required"
  const ACCEPT_TERMS: string := "Please accept Terms & Privacy Policy"
  const LOGIN_REQUIRED: string := "Email / Mobile & password required"
  const REGISTERED: string := "✅ Registered successfully. Please login."
  const REGISTER_FAILED: string := "Registration failed"
  const LOGGED_IN: string := "✅ Login successful"
  const LOGIN_FAILED: string := "Login failed"
  const SERVER_ERROR: string := "Server error"
  const TICK: char := '✅'

  datatype Mode = LoginMode | SignupMode

  /** The request bodies the pop-up posts. */
  datatype Request =
    | Register(name: string, mobile: string, email: string, password: string)
    | UserLogin(identifier: string, password: string)

  /** A pending `setTimeout` callback: after a registration, back to the login
      form; after a login, close the pop-up. Both then reset the fields. */
  datatype Timer = BackToLogin | CloseAndReset

  // ---------------------------------------------------------------- the checks

  /** The sign-up check: every field first, then the terms box. */
  function RegisterError(name: string, mobile: string, email: string, password: string,
                         acceptTerms: bool): (r: Option<string>)
    ensures r.None? <==> name != [] && mobile != [] && email != [] && password != [] && acceptTerms
    ensures name == [] || mobile == [] || email == [] || password == [] ==> r == Some(FIELDS_REQUIRED)
    ensures name != [] && mobile != [] && email != [] && password != [] && !acceptTerms ==>
              r == Some(ACCEPT_TERMS)
  {
    if name == [] || mobile == [] || email == [] || password == [] then Some(FIELDS_REQUIRED)
    else if !acceptTerms then Some(ACCEPT_TERMS)
    else None
  }

  /** The login check. */
  function LoginError(identifier: string, password: string): (r: Option<string>)
    ensures r.None? <==> identifier != [] && password != []
    ensures r.Some? ==> r.value == LOGIN_REQUIRED
  {
    if identifier == [] || password == [] then Some(LOGIN_REQUIRED) else None
  }

  /** The answer's message: the success text when `data.success` is truthy, the
      backend's message or `fallback` otherwise, and "Server error" when the
      request, `JSON.parse` or the read of `data.success` threw. */
  function AnswerMessage(o: Outcome, ok: string, fallback: string): (m: string)
    ensures o.Broken? || o.data == JNull ==> m == SERVER_ERROR
    ensures o.Body? && o.data != JNull && Truthy(Get(Some(o.data), "success")) ==> m == ok
    ensures o.Body? && o.data != JNull && !Truthy(Get(Some(o.data), "success")) ==>
              m == MessageOr(Get(Some(o.data), "message"), fallback)
  {
    if o.Broken? || o.data == JNull then SERVER_ERROR
    else if Truthy(Get(Some(o.data), "success")) then ok
    else MessageOr(Get(Some(o.data), "message"), fallback)
  }

  predicate Succeeded(o: Outcome) {
    o.Body? && o.data != JNull && Truthy(Get(Some(o.data), "success"))
  }

  /** `messageStyle`: green exactly when the message holds the tick. */
  predicate IsGreen(message: string) {
    Contains(message, [TICK])
  }

  /** The two success messages are green. */
  lemma SuccessIsGreen()
    ensures IsGreen(REGISTERED) && IsGreen(LOGGED_IN)
  {
    assert REGISTERED[0] == TICK && LOGGED_IN[0] == TICK;
    CharIsContained(REGISTERED, TICK);
    CharIsContained(LOGGED_IN, TICK);
  }

  /** A message without the tick is red. */
  lemma NoTickIsRed(m: string)
    requires TICK !in m
    ensures !IsGreen(m)
  {
    NoCharNoContains(m, [TICK], TICK);
  }

  /** The messages of the two checks are red. */
  lemma FieldsRequiredIsRed()
    ensures !IsGreen(FIELDS_REQUIRED)
  {
    NoTickIsRed(FIELDS_REQUIRED);
  }

  lemma AcceptTermsIsRed()
    ensures !IsGreen(ACCEPT_TERMS)
  {
    NoTickIsRed(ACCEPT_TERMS);
  }

  lemma LoginRequiredIsRed()
    ensures !IsGreen(LOGIN_REQUIRED)
  {
    NoTickIsRed(LOGIN_REQUIRED);
  }

  /** The fixed failure messages of the answers, and the cleared message, are red. */
  lemma AnswerErrorsAreRed()
    ensures !IsGreen(REGISTER_FAILED) && !IsGreen(LOGIN_FAILED) && !IsGreen(SERVER_ERROR) && !IsGreen([])
  {
    NoTickIsRed(REGISTER_FAILED);
    NoTickIsRed(LOGIN_FAILED);
    NoTickIsRed(SERVER_ERROR);
    NoTickIsRed([]);
  }

  /** An answer is shown green when it succeeded; a failed one is red unless the
      backend's own message carries the tick. */
  lemma AnswerColour(o: Outcome, ok: string, fallback: string)
    requires ok == REGISTERED || ok == LOGGED_IN
    requires fallback == REGISTER_FAILED || fallback == LOGIN_FAILED
    ensures Succeeded(o) ==> IsGreen(AnswerMessage(o, ok, fallback))
    ensures !Succeeded(o) && !(o.Body? && o.data != JNull && IsGreen(ToStr(Get(Some(o.data), "message")))) ==>
              !IsGreen(AnswerMessage(o, ok, fallback))
  {
    SuccessIsGreen();
    AnswerErrorsAreRed();
  }

  // ---------------------------------------------------------------- the pop-up

  /** The pop-up's state. `requests` are the bodies posted, `inFlight` the
      requests not yet answered, `timers` the pending callbacks, `delivered` the
      users handed to `onLoginSuccess` and `closes` the calls of `onClose`. */
  class Popup {
    var mode: Mode
    var name: string
    var mobile: string
    var email: string
    var identifier: string
    var password: string
    var acceptTerms: bool
    var loading: bool
    var message: string
    var requests: seq<Request>
    var inFlight: nat
    var timers: seq<Timer>
    var delivered: seq<Val>
    var closes: nat

    /** The mobile field only ever holds digits. */
    ghost predicate Valid()
      reads this
    {
      AllDigits(mobile)
    }

    /** The fields `resetAll` clears. */
    predicate Cleared()
      reads this
    {
      name == [] && mobile == [] && email == [] && identifier == [] && password == [] &&
      !acceptTerms && message == []
    }

    constructor ()
      ensures Valid() && Cleared()
      ensures mode == LoginMode && !loading && requests == [] && inFlight == 0
      ensures timers == [] && delivered == [] && closes == 0
    {
      mode := LoginMode;
      name, mobile, email, identifier, password := [], [], [], [], [];
      acceptTerms, loading := false, false;
      message := [];
      requests, inFlight, timers, delivered, closes := [], 0, [], [], 0;
    }

    /** `resetAll`: every field and the message are cleared and the box is unticked. */
    method ResetAll()
      modifies this
      ensures Valid() && Cleared()
      ensures mode == old(mode) && loading == old(loading) && requests == old(requests)
      ensures inFlight == old(inFlight) && timers == old(timers)
      ensures delivered == old(delivered) && closes == old(closes)
    {
      name, mobile, email, identifier, password := [], [], [], [], [];
      acceptTerms := false;
      message := [];
    }

    /** The mobile input: every non-digit typed is dropped. */
    method TypeMobile(text: string)
      modifies this
      ensures Valid()
      ensures mobile == DigitsOnly(text)
      ensures name == old(name) && email == old(email) && identifier == old(identifier)
      ensures password == old(password) && acceptTerms == old(acceptTerms) && message == old(message)
      ensures mode == old(mode) && loading == old(loading) && requests == old(requests)
      ensures inFlight == old(inFlight) && timers == old(timers)
      ensures delivered == old(delivered) && closes == old(closes)
    {
      mobile := DigitsOnly(text);
    }

    /** The other inputs and the terms box take what is typed or ticked. */
    method TypeOther(name1: string, email1: string, identifier1: string, password1: string, terms1: bool)
      modifies this
      ensures name == name1 && email == email1 && identifier == identifier1
      ensures password == password1 && acceptTerms == terms1
      ensures mobile == old(mobile) && message == old(message)
      ensures mode == old(mode) && loading == old(loading) && requests == old(requests)
      ensures inFlight == old(inFlight) && timers == old(timers)
      ensures delivered == old(delivered) && closes == old(closes)
      ensures old(Valid()) ==> Valid()
    {
      name, email, identifier, password, acceptTerms := name1, email1, identifier1, password1, terms1;
    }

    /** The "Sign up" and "Login" links switch the form and reset the fields. */
    method SwitchMode(to: Mode)
      modifies this
      ensures mode == to && Cleared() && Valid()
      ensures loading == old(loading) && requests == old(requests)
      ensures inFlight == old(inFlight) && timers == old(timers)
      ensures delivered == old(delivered) && closes == old(closes)
    {
      mode := to;
      ResetAll();
    }

    /** The back arrow of the sign-up form goes to the login form without resetting. */
    method Back()
      requires mode == SignupMode
      modifies this
      ensures mode == LoginMode
      ensures name == old(name) && mobile == old(mobile) && email == old(email) && identifier == old(identifier)
      ensures password == old(password) && acceptTerms == old(acceptTerms) && message == old(message)
      ensures loading == old(loading) && requests == old(requests)
      ensures inFlight == old(inFlight) && timers == old(timers)
      ensures delivered == old(delivered) && closes == old(closes)
      ensures old(Valid()) ==> Valid()
    {
      mode := LoginMode;
    }

    /** `handleRegister`, from the sign-up form's button (disabled while loading):
        a failed check shows its message and posts nothing; otherwise the
        message is cleared, loading starts and the four fields are posted. */
    method SubmitRegister()
      requires mode == SignupMode && !loading
      modifies this
      ensures RegisterError(old(name), old(mobile), old(email), old(password), old(acceptTerms)).Some? ==>
                message == RegisterError(old(name), old(mobile), old(email), old(password), old(acceptTerms)).value &&
                !loading && requests == old(requests) && inFlight == old(inFlight)
      ensures RegisterError(old(name), old(mobile), old(email), old(password), old(acceptTerms)).None? ==>
                message == [] && loading && inFlight == old(inFlight) + 1 &&
                requests == old(requests) + [Register(old(name), old(mobile), old(email), old(password))]
      ensures mode == old(mode) && name == old(name) && mobile == old(mobile) && email == old(email)
      ensures identifier == old(identifier) && password == old(password) && acceptTerms == old(acceptTerms)
      ensures timers == old(timers) && delivered == old(delivered) && closes == old(closes)
      ensures old(Valid()) ==> Valid()
    {
      message := [];
      var err := RegisterError(name, mobile, email, password, acceptTerms);
      if err.Some? {
        message := err.value;
        return;
      }
      loading := true;
      requests := requests + [Register(name, mobile, email, password)];
      inFlight := inFlight + 1;
    }

    /** `handleLogin`, from the login form's button (disabled while loading) or
        from Enter in the password field, which is never disabled: a second
        request can start while one is in flight. */
    method SubmitLogin()
      requires mode == LoginMode
      modifies this
      ensures LoginError(old(identifier), old(password)).Some? ==>
                message == LOGIN_REQUIRED && loading == old(loading) && requests == old(requests) &&
                inFlight == old(inFlight)
      ensures LoginError(old(identifier), old(password)).None? ==>
                message == [] && loading && inFlight == old(inFlight) + 1 &&
                requests == old(requests) + [UserLogin(old(identifier), old(password))]
      ensures mode == old(mode) && name == old(name) && mobile == old(mobile) && email == old(email)
      ensures identifier == old(identifier) && password == old(password) && acceptTerms == old(acceptTerms)
      ensures timers == old(timers) && delivered == old(delivered) && closes == old(closes)
      ensures old(Valid()) ==> Valid()
    {
      message := [];
      var err := LoginError(identifier, password);
      if err.Some? {
        message := err.value;
        return;
      }
      loading := true;
      requests := requests + [UserLogin(identifier, password)];
      inFlight := inFlight + 1;
    }

    /** The registration answer: the message is set, a success schedules the
        return to the login form, and loading ends (`finally`). */
    method RegisterAnswered(o: Outcome)
      requires inFlight > 0
      modifies this
      ensures message == AnswerMessage(o, REGISTERED, REGISTER_FAILED) && !loading && inFlight == old(inFlight) - 1
      ensures Succeeded(o) ==> timers == old(timers) + [BackToLogin]
      ensures !Succeeded(o) ==> timers == old(timers)
      ensures mode == old(mode) && name == old(name) && mobile == old(mobile) && email == old(email)
      ensures identifier == old(identifier) && password == old(password) && acceptTerms == old(acceptTerms)
      ensures requests == old(requests) && delivered == old(delivered) && closes == old(closes)
      ensures old(Valid()) ==> Valid()
    {
      message := AnswerMessage(o, REGISTERED, REGISTER_FAILED);
      if Succeeded(o) {
        timers := timers + [BackToLogin];
      }
      loading := false;
      inFlight := inFlight - 1;
    }

    /** The login answer: on success the user goes to `onLoginSuccess` and the
        close is scheduled; loading ends either way. */
    method LoginAnswered(o: Outcome)
      requires inFlight > 0
      modifies this
      ensures message == AnswerMessage(o, LOGGED_IN, LOGIN_FAILED) && !loading && inFlight == old(inFlight) - 1
      ensures Succeeded(o) ==>
                timers == old(timers) + [CloseAndReset] &&
                delivered == old(delivered) + [Get(Some(o.data), "user")]
      ensures !Succeeded(o) ==> timers == old(timers) && delivered == old(delivered)
      ensures mode == old(mode) && name == old(name) && mobile == old(mobile) && email == old(email)
      ensures identifier == old(identifier) && password == old(password) && acceptTerms == old(acceptTerms)
      ensures requests == old(requests) && closes == old(closes)
      ensures old(Valid()) ==> Valid()
    {
      message := AnswerMessage(o, LOGGED_IN, LOGIN_FAILED);
      if Succeeded(o) {
        delivered := delivered + [Get(Some(o.data), "user")];
        timers := timers + [CloseAndReset];
      }
      loading := false;
      inFlight := inFlight - 1;
    }

    /** Pending callback `k` runs: back to the login form, or `onClose`; then
        `resetAll`. */
    method TimerFired(k: nat)
      requires k < |timers|
      modifies this
      ensures timers == old(timers)[..k] + old(timers)[k + 1..]
      ensures Cleared() && Valid()
      ensures old(timers)[k] == BackToLogin ==> mode == LoginMode && closes == old(closes)
      ensures old(timers)[k] == CloseAndReset ==> mode == old(mode) && closes == old(closes) + 1
      ensures loading == old(loading) && requests == old(requests) && inFlight == old(inFlight)
      ensures delivered == old(delivered)
    {
      var t := timers[k];
      timers := timers[..k] + timers[k + 1..];
      if t == BackToLogin {
        mode := LoginMode;
      } else {
        closes := closes + 1;
      }
      ResetAll();
    }
  }

  /** A filled-in sign-up form with the box ticked posts exactly what was typed,
      with the mobile number reduced to its digits. */
  method SignUp(p: Popup, name: string, typedMobile: string, email: string, password: string)
    requires p.mode == SignupMode && !p.loading
    requires name != [] && email != [] && password != [] && DigitsOnly(typedMobile) != []
    modifies p
    ensures p.requests == old(p.requests) + [Register(name, DigitsOnly(typedMobile), email, password)]
    ensures p.loading && p.message == []
  {
    p.TypeMobile(typedMobile);
    p.TypeOther(name, email, p.identifier, password, true);
    p.SubmitRegister();
  }
}
